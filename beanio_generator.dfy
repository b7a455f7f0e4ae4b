/**
 * BeanIOJsonSchemaGenerator: the segmented JSON Schema for BeanIO. Column
 * names "SEGMENT.FIELD" are grouped by segment in first-seen order, every
 * field gets a global x-position in grouped order, and required lists name
 * the fields and segments that are not typed "null".
 */
module BeanIOGenerator {
  import opened Wrappers
  import opened Text
  import opened OrderedMap
  import opened Model
  import opened Json
  import opened Request

  const SchemaVersion := "http://json-schema.org/draft-07/schema#"
  const SchemaId := "urn:csv:accounting:canonical:beanio-mapping"
  const SchemaDescription := "BeanIO-optimized JSON Schema for CSV mapping"
  const GeneratedBy := "File Schema Analyzer - BeanIO Edition"
  const GeneralSegment := "GENERAL"
  const NullRootMessage := "Root element cannot be null"
  const NoStructureMessage := "No structure found in CSV"
  const NotObjectMessage := "Expected object type for CSV row"
  /** The NullPointerException of request.getFileType().name() on a request without a file type. */
  const NullFileTypeMessage := "Cannot invoke \"FileType.name()\" because the file type is null"

  /** An AnalyzerException built without a file type. */
  function GenerationError(message: string): Exception {
    AnalyzerException("GENERATION_ERROR", None, message)
  }

  /** FieldInfo: the full column name and its type. */
  datatype FieldInfo = FieldInfo(originalName: string, typ: string)

  /** The fields of one segment, by field name, in first-seen order. */
  type Fields = OMap<string, FieldInfo>

  /** The segments, by segment name, in first-seen order. */
  type Segments = OMap<string, Fields>

  // ---------------------------------------------------------------- grouping

  /** The segment and field of a column name: split at the first '.', or GENERAL and the whole name. */
  function SplitColumn(name: string): (string, string) {
    match IndexOf(name, '.')
    case None => (GeneralSegment, name)
    case Some(i) => (name[..i], name[i + 1..])
  }

  /** A dotted name is its segment, a '.', and its field, the segment being dot-free; other names go to GENERAL. */
  lemma SplitColumnJoins(name: string)
    ensures var r := SplitColumn(name);
      && ('.' in name ==> r.0 + "." + r.1 == name && '.' !in r.0)
      && ('.' !in name ==> r == (GeneralSegment, name))
  {
    match IndexOf(name, '.')
    case None =>
    case Some(i) =>
      assert name[..i] + "." + name[i + 1..] == name;
  }

  /** Joining a dot-free segment and any field with '.' is undone by SplitColumn. */
  lemma SplitColumnOfJoin(segment: string, field: string)
    requires '.' !in segment
    ensures SplitColumn(segment + "." + field) == (segment, field)
  {
    var name := segment + "." + field;
    assert name[|segment|] == '.';
    assert forall j :: 0 <= j < |segment| ==> name[j] == segment[j] && name[j] != '.';
    var i := IndexOf(name, '.').value;
    assert i == |segment|;
    assert name[..i] == segment && name[i + 1..] == field;
  }

  /** The (segment, field) key of a column. */
  function KeyOf(column: Node): (string, string) {
    SplitColumn(column.name)
  }

  /** One column of groupFieldsBySegment: its field put into its segment, the segment created when absent. */
  function GroupStep(segments: Segments, column: Node): Segments {
    var key := KeyOf(column);
    Put(segments, key.0, Put(Get(segments, key.0).GetOr([]), key.1, FieldInfo(column.name, column.typ)))
  }

  /** groupFieldsBySegment of the columns, in order. */
  function Grouped(columns: seq<Node>): Segments
    decreases |columns|
  {
    if columns == [] then [] else GroupStep(Grouped(columns[..|columns| - 1]), columns[|columns| - 1])
  }

  /** One entry per segment, and in every segment one entry per field. */
  predicate WellFormed(segments: Segments) {
    Valid(segments) && forall s :: 0 <= s < |segments| ==> Valid(segments[s].1)
  }

  /** The FieldInfo stored under a segment and a field, if any. */
  function Lookup(segments: Segments, segment: string, field: string): Option<FieldInfo> {
    match Get(segments, segment)
    case None => None
    case Some(fields) => Get(fields, field)
  }

  /** Reference definition: the FieldInfo of the last column whose key is (segment, field). */
  function LastInfo(columns: seq<Node>, segment: string, field: string): Option<FieldInfo>
    decreases |columns|
  {
    if columns == [] then None
    else
      var c := columns[|columns| - 1];
      if KeyOf(c) == (segment, field) then Some(FieldInfo(c.name, c.typ)) else LastInfo(columns[..|columns| - 1], segment, field)
  }

  /** The segment of every column, in column order. */
  function SegmentNames(columns: seq<Node>): seq<string>
    decreases |columns|
  {
    if columns == [] then [] else SegmentNames(columns[..|columns| - 1]) + [KeyOf(columns[|columns| - 1]).0]
  }

  /** groupFieldsBySegment: the loop over the item's columns with computeIfAbsent and put. */
  method GroupFieldsBySegment(item: Node) returns (segments: Segments)
    ensures segments == Grouped(item.children)
  {
    segments := [];
    var i := 0;
    while i < |item.children|
      invariant 0 <= i <= |item.children|
      invariant segments == Grouped(item.children[..i])
    {
      PrefixOfPrefix(item.children, i);
      GroupedWellFormed(item.children[..i]);
      segments := AddField(segments, item.children[i]);
      i := i + 1;
    }
    WholePrefix(item.children, i);
  }

  /** The body of the grouping loop for one column: split its name, computeIfAbsent the segment, put the field. */
  method AddField(segments: Segments, field: Node) returns (updated: Segments)
    requires Valid(segments)
    ensures updated == GroupStep(segments, field)
  {
    var key := SplitColumn(field.name);
    var segmentName, fieldName := key.0, key.1;
    updated := segments;
    if segmentName !in Keys(updated) {
      updated := Put(updated, segmentName, []);
    }
    var fields := Get(updated, segmentName).value;
    updated := Put(updated, segmentName, Put(fields, fieldName, FieldInfo(field.name, field.typ)));
    ComputeIfAbsentThenPut(segments, field);
  }

  /** computeIfAbsent followed by get(...).put(...) is one GroupStep. */
  lemma ComputeIfAbsentThenPut(segments: Segments, column: Node)
    requires Valid(segments)
    ensures var key := KeyOf(column);
      var created := if key.0 in Keys(segments) then segments else Put(segments, key.0, []);
      Put(created, key.0, Put(Get(created, key.0).value, key.1, FieldInfo(column.name, column.typ))) == GroupStep(segments, column)
  {
    var key := KeyOf(column);
    var info := FieldInfo(column.name, column.typ);
    if key.0 !in Keys(segments) {
      PutTwice(segments, key.0, [], Put([], key.1, info));
    }
  }

  /** Grouping yields one entry per segment and one per field within a segment. */
  lemma {:induction false} GroupedWellFormed(columns: seq<Node>)
    ensures WellFormed(Grouped(columns))
    decreases |columns|
  {
    if columns != [] {
      var prefix := Grouped(columns[..|columns| - 1]);
      GroupedWellFormed(columns[..|columns| - 1]);
      var c := columns[|columns| - 1];
      var key := KeyOf(c);
      var inner := Get(prefix, key.0).GetOr([]);
      assert Valid(inner) by {
        if Get(prefix, key.0).Some? {
          var s := IndexOf(Keys(prefix), key.0).value;
          assert inner == prefix[s].1;
        }
      }
      var r := Grouped(columns);
      forall s | 0 <= s < |r| ensures Valid(r[s].1) {
        if key.0 in Keys(prefix) {
          assert r[s] == if prefix[s].0 == key.0 then (key.0, Put(inner, key.1, FieldInfo(c.name, c.typ))) else prefix[s];
        } else {
          assert r == prefix + [(key.0, Put(inner, key.1, FieldInfo(c.name, c.typ)))];
        }
      }
    }
  }

  /** Segments are listed in the order their first column appears. */
  lemma {:induction false} GroupedSegmentOrder(columns: seq<Node>)
    ensures Keys(Grouped(columns)) == Distinct(SegmentNames(columns))
    decreases |columns|
  {
    if columns != [] {
      var p := columns[..|columns| - 1];
      GroupedSegmentOrder(p);
      DistinctSnoc(SegmentNames(p), KeyOf(columns[|columns| - 1]).0);
    }
  }

  /** A repeated (segment, field) key keeps the FieldInfo of its last column. */
  lemma {:induction false} GroupedLookup(columns: seq<Node>, segment: string, field: string)
    ensures Lookup(Grouped(columns), segment, field) == LastInfo(columns, segment, field)
    decreases |columns|
  {
    if columns != [] {
      var p := columns[..|columns| - 1];
      GroupedLookup(p, segment, field);
      var segs := Grouped(p);
      var c := columns[|columns| - 1];
      var key := KeyOf(c);
      var inner := Get(segs, key.0).GetOr([]);
      var r := Grouped(columns);
      if key.0 == segment {
        assert Get(r, segment) == Some(Put(inner, key.1, FieldInfo(c.name, c.typ)));
      } else {
        assert Get(r, segment) == Get(segs, segment);
      }
    }
  }

  // ---------------------------------------------------------------- positions and required lists

  /** Every field of every segment, segment after segment: the order positions are handed out in. */
  function Flatten<S, F, I>(segments: OMap<S, OMap<F, I>>): seq<(S, F, I)>
    decreases |segments|
  {
    if segments == [] then [] else Flatten(segments[..|segments| - 1]) + SegmentRows(segments[|segments| - 1])
  }

  /** The fields of one segment, each with the segment's name. */
  function SegmentRows<S, F, I>(segment: (S, OMap<F, I>)): seq<(S, F, I)> {
    seq(|segment.1|, k requires 0 <= k < |segment.1| => (segment.0, segment.1[k].0, segment.1[k].1))
  }

  /** The fields of one more segment follow the fields of the segments before it. */
  lemma FlattenStep<S, F, I>(segments: OMap<S, OMap<F, I>>, s: nat)
    requires s < |segments|
    ensures |Flatten(segments[..s + 1])| == |Flatten(segments[..s])| + |segments[s].1|
  {
    PrefixOfPrefix(segments, s);
  }

  /** The schema of one field at a position. */
  function FieldSchema(info: FieldInfo, position: int): Json {
    JObject([
      ("type", JString(info.typ)),
      ("x-position", JInt(position)),
      ("x-csv-column", JString(info.originalName)),
      ("description", JString("Column: " + info.originalName))])
  }

  /** The properties of one segment whose first field is at position base. */
  function FieldProperties(fields: Fields, base: int): seq<(string, Json)> {
    seq(|fields|, k requires 0 <= k < |fields| => FieldEntry(fields, base, k))
  }

  /** The property of field k of a segment whose first field is at position base. */
  function FieldEntry(fields: Fields, base: int, k: nat): (string, Json)
    requires k < |fields|
  {
    (fields[k].0, FieldSchema(fields[k].1, base + k))
  }

  /** The names of the fields whose type is not "null", in order. */
  function RequiredFields(fields: Fields): seq<string>
    decreases |fields|
  {
    if fields == [] then []
    else
      var last := fields[|fields| - 1];
      RequiredFields(fields[..|fields| - 1]) + (if last.1.typ != "null" then [last.0] else [])
  }

  /** A name is required exactly when one of the fields has that name and a type other than "null". */
  lemma RequiredFieldsAgree(fields: Fields, x: string)
    ensures x in RequiredFields(fields) <==> exists k :: 0 <= k < |fields| && fields[k].0 == x && fields[k].1.typ != "null"
  {
    if x in RequiredFields(fields) {
      RequiredFieldFound(fields, x);
    }
    if exists k :: 0 <= k < |fields| && fields[k].0 == x && fields[k].1.typ != "null" {
      var k :| 0 <= k < |fields| && fields[k].0 == x && fields[k].1.typ != "null";
      RequiredFieldListed(fields, k);
    }
  }

  /** Every required name comes from a field of that name whose type is not "null". */
  lemma {:induction false} RequiredFieldFound(fields: Fields, x: string)
    requires x in RequiredFields(fields)
    ensures exists k :: 0 <= k < |fields| && fields[k].0 == x && fields[k].1.typ != "null"
    decreases |fields|
  {
    var n := |fields| - 1;
    var p := fields[..n];
    if x in RequiredFields(p) {
      RequiredFieldFound(p, x);
      var k :| 0 <= k < |p| && p[k].0 == x && p[k].1.typ != "null";
      assert fields[k] == p[k];
    } else {
      assert fields[n].0 == x && fields[n].1.typ != "null";
    }
  }

  /** Every field whose type is not "null" has its name in the required list. */
  lemma {:induction false} RequiredFieldListed(fields: Fields, k: nat)
    requires k < |fields| && fields[k].1.typ != "null"
    ensures fields[k].0 in RequiredFields(fields)
    decreases |fields|
  {
    var n := |fields| - 1;
    var p := fields[..n];
    if k < n {
      assert p[k] == fields[k];
      RequiredFieldListed(p, k);
    }
  }

  /** A "required" member, present only for a non-empty list. */
  function RequiredMember(names: seq<string>): seq<(string, Json)> {
    if names == [] then [] else [("required", Strings(names))]
  }

  /** The schema of one segment whose first field is at position base. */
  function SegmentSchema(name: string, fields: Fields, base: int): Json {
    JObject([
      ("type", JString("object")),
      ("description", JString(name + " segment")),
      ("x-segment", JBool(true)),
      ("properties", JObject(FieldProperties(fields, base)))] + RequiredMember(RequiredFields(fields)))
  }

  /** The properties member of the document: each segment's fields numbered on from the segments before it. */
  function SegmentsProperties(segments: Segments): seq<(string, Json)> {
    seq(|segments|, s requires 0 <= s < |segments| => SegmentEntry(segments, s))
  }

  /** The property of segment s: its name and its schema, numbered after the fields of the segments before it. */
  function SegmentEntry(segments: Segments, s: nat): (string, Json)
    requires s < |segments|
  {
    (segments[s].0, SegmentSchema(segments[s].0, segments[s].1, |Flatten(segments[..s])|))
  }

  /** anyMatch(field -> !"null".equals(field.type)). */
  predicate HasNonNullField(fields: Fields) {
    exists k :: 0 <= k < |fields| && fields[k].1.typ != "null"
  }

  /** The segments with at least one field not typed "null", in order. */
  function RequiredSegments(segments: Segments): seq<string>
    decreases |segments|
  {
    if segments == [] then []
    else
      var last := segments[|segments| - 1];
      RequiredSegments(segments[..|segments| - 1]) + (if HasNonNullField(last.1) then [last.0] else [])
  }

  /** The fields loop of one segment: properties put in order, required names collected, positions counted on. */
  method BuildSegmentFields(fields: Fields, base: int) returns (segmentProperties: OMap<string, Json>, requiredFields: seq<string>, next: int)
    requires Valid(fields)
    ensures segmentProperties == FieldProperties(fields, base)
    ensures requiredFields == RequiredFields(fields)
    ensures next == base + |fields|
  {
    segmentProperties, requiredFields := [], [];
    next := base;
    var k := 0;
    while k < |fields|
      invariant 0 <= k <= |fields|
      invariant next == base + k
      invariant |segmentProperties| == k
      invariant forall j :: 0 <= j < k ==> segmentProperties[j] == FieldEntry(fields, base, j)
      invariant requiredFields == RequiredFields(fields[..k])
    {
      var fieldName := fields[k].0;
      var fieldInfo := fields[k].1;
      var fieldSchema := FieldSchema(fieldInfo, next);
      assert (fieldName, fieldSchema) == FieldEntry(fields, base, k);
      PutNextKey(segmentProperties, fields, k, fieldSchema);
      FieldEntriesStep(fields, base, k, segmentProperties);
      segmentProperties := Put(segmentProperties, fieldName, fieldSchema);
      RequiredFieldsStep(fields, k);
      if fieldInfo.typ != "null" {
        requiredFields := requiredFields + [fieldName];
      }
      next := next + 1;
      k := k + 1;
    }
    WholePrefix(fields, k);
  }

  /** The field properties of the first k fields, followed by field k's, are those of the first k + 1. */
  lemma FieldEntriesStep(fields: Fields, base: int, k: nat, properties: seq<(string, Json)>)
    requires k < |fields| && |properties| == k
    requires forall j :: 0 <= j < k ==> properties[j] == FieldEntry(fields, base, j)
    ensures forall j :: 0 <= j < k + 1 ==> (properties + [FieldEntry(fields, base, k)])[j] == FieldEntry(fields, base, j)
  {
  }

  /** The required list of one more field. */
  lemma RequiredFieldsStep(fields: Fields, k: nat)
    requires k < |fields|
    ensures RequiredFields(fields[..k + 1]) == RequiredFields(fields[..k]) + (if fields[k].1.typ != "null" then [fields[k].0] else [])
  {
    PrefixOfPrefix(fields, k);
  }

  /** One iteration of the segments loop: the segment's schema, built from its fields loop and required list. */
  method BuildSegment(segmentName: string, fields: Fields, globalPosition: int) returns (segmentSchema: Json, next: int)
    requires Valid(fields)
    ensures segmentSchema == SegmentSchema(segmentName, fields, globalPosition)
    ensures next == globalPosition + |fields|
  {
    var segmentProperties, requiredFields, position := BuildSegmentFields(fields, globalPosition);
    next := position;
    segmentSchema := JObject([
      ("type", JString("object")),
      ("description", JString(segmentName + " segment")),
      ("x-segment", JBool(true)),
      ("properties", JObject(segmentProperties))] + RequiredMember(requiredFields));
  }

  /** The segments loop: one segment schema per segment, with the global position counter. */
  method BuildProperties(segments: Segments) returns (properties: OMap<string, Json>, globalPosition: int)
    requires WellFormed(segments)
    ensures properties == SegmentsProperties(segments)
    ensures globalPosition == |Flatten(segments)|
  {
    properties := [];
    globalPosition := 0;
    var s := 0;
    while s < |segments|
      invariant 0 <= s <= |segments|
      invariant globalPosition == |Flatten(segments[..s])|
      invariant |properties| == s
      invariant forall j :: 0 <= j < s ==> properties[j] == SegmentEntry(segments, j)
    {
      var segmentName := segments[s].0;
      var segmentSchema, next := BuildSegment(segmentName, segments[s].1, globalPosition);
      PutNextKey(properties, segments, s, segmentSchema);
      SegmentEntriesStep(segments, s, properties, segmentSchema);
      properties := Put(properties, segmentName, segmentSchema);
      FlattenStep(segments, s);
      globalPosition := next;
      s := s + 1;
    }
    WholePrefix(segments, s);
  }

  /** The segment entries of the first s segments, followed by segment s's entry, are those of the first s + 1. */
  lemma SegmentEntriesStep(segments: Segments, s: nat, properties: seq<(string, Json)>, segmentSchema: Json)
    requires s < |segments| && |properties| == s
    requires forall j :: 0 <= j < s ==> properties[j] == SegmentEntry(segments, j)
    requires segmentSchema == SegmentSchema(segments[s].0, segments[s].1, |Flatten(segments[..s])|)
    ensures forall j :: 0 <= j < s + 1 ==> (properties + [(segments[s].0, segmentSchema)])[j] == SegmentEntry(segments, j)
  {
  }

  /** The required-segments loop. */
  method CollectRequiredSegments(segments: Segments) returns (requiredSegments: seq<string>)
    ensures requiredSegments == RequiredSegments(segments)
  {
    requiredSegments := [];
    var s := 0;
    while s < |segments|
      invariant 0 <= s <= |segments|
      invariant requiredSegments == RequiredSegments(segments[..s])
    {
      PrefixOfPrefix(segments, s);
      if HasNonNullField(segments[s].1) {
        requiredSegments := requiredSegments + [segments[s].0];
      }
      s := s + 1;
    }
    WholePrefix(segments, s);
  }

  // ---------------------------------------------------------------- record name

  /**
   * The camel-cased parts of a split name: the first part lowercased, every
   * later part lowercased with its first character upper-cased; an empty
   * later part fails like charAt(0) on an empty string.
   */
  function CamelParts(parts: seq<string>): (r: Result<string, Exception>)
    ensures r.Err? <==> exists k :: 1 <= k < |parts| && parts[k] == []
    ensures r.Err? ==> r == Err(Runtime(EmptyStringCharAtMessage))
    decreases |parts|
  {
    if parts == [] then Ok("")
    else
      var i := |parts| - 1;
      var p := parts[..i];
      assert forall k :: 0 <= k < i ==> p[k] == parts[k];
      match CamelParts(p)
      case Err(e) => Err(e)
      case Ok(prefix) =>
        var part := ToLower(parts[i]);
        if i == 0 then Ok(prefix + part)
        else if part == [] then Err(Runtime(EmptyStringCharAtMessage))
        else Ok(prefix + [UpperChar(part[0])] + part[1..])
  }

  /** toRecordName: "record" for a null or empty name, otherwise the camel-cased '_'-separated parts. */
  function RecordName(schemaName: Option<string>): (r: Result<string, Exception>)
    ensures schemaName.None? || schemaName.value == [] ==> r == Ok("record")
  {
    if schemaName.None? || schemaName.value == [] then Ok("record")
    else CamelParts(SplitEach(schemaName.value, IsUnderscore))
  }

  /** Once a prefix of the parts fails, the whole conversion fails the same way. */
  lemma {:induction false} CamelPartsFailureSticks(parts: seq<string>, j: nat)
    requires j <= |parts| && CamelParts(parts[..j]).Err?
    ensures CamelParts(parts) == CamelParts(parts[..j])
    decreases |parts| - j
  {
    if j < |parts| {
      PrefixOfPrefix(parts, j);
      CamelPartsFailureSticks(parts, j + 1);
    } else {
      WholePrefix(parts, j);
    }
  }

  /** One more part of the conversion, given the result for the parts before it. */
  lemma CamelPartsStep(parts: seq<string>, i: nat, prefix: string)
    requires i < |parts| && CamelParts(parts[..i]) == Ok(prefix)
    ensures var part := ToLower(parts[i]);
      CamelParts(parts[..i + 1]) ==
        if i == 0 then Ok(prefix + part)
        else if part == [] then Err(Runtime(EmptyStringCharAtMessage))
        else Ok(prefix + [UpperChar(part[0])] + (if |part| > 1 then part[1..] else []))
  {
    PrefixOfPrefix(parts, i);
    var part := ToLower(parts[i]);
    if |part| == 1 {
      assert part[1..] == [];
    }
  }

  /** toRecordName: the StringBuilder loop over the parts. */
  method ToRecordName(schemaName: Option<string>) returns (r: Result<string, Exception>)
    ensures r == RecordName(schemaName)
  {
    if schemaName.None? || |schemaName.value| == 0 {
      return Ok("record");
    }
    var parts := SplitEach(schemaName.value, IsUnderscore);
    var recordName := "";
    var i := 0;
    while i < |parts|
      invariant 0 <= i <= |parts|
      invariant CamelParts(parts[..i]) == Ok(recordName)
    {
      var part := ToLower(parts[i]);
      CamelPartsStep(parts, i, recordName);
      if i == 0 {
        recordName := recordName + part;
      } else {
        if |part| == 0 {
          CamelPartsFailureSticks(parts, i + 1);
          return Err(Runtime(EmptyStringCharAtMessage));
        }
        ghost var prefix := recordName;
        recordName := recordName + [UpperChar(part[0])];
        if |part| > 1 {
          recordName := recordName + part[1..];
        }
        assert recordName == prefix + [UpperChar(part[0])] + (if |part| > 1 then part[1..] else []);
      }
      i := i + 1;
    }
    WholePrefix(parts, i);
    r := Ok(recordName);
  }

  // ---------------------------------------------------------------- the document

  /** The x-beanio-config member. */
  function BeanIOConfig(f: RequestFields, recordName: string): Json {
    JObject([
      ("format", JString("csv")),
      ("delimiter", JString(GetParserOptionOr(f, "delimiter", ","))),
      ("quoteChar", JString(GetParserOptionOr(f, "quoteChar", "\""))),
      ("recordName", JString(recordName)),
      ("strict", JBool(true))])
  }

  /** The x-metadata member. */
  function Metadata(fileType: FileType): Json {
    JObject([
      ("sourceType", JString(fileType.Name())),
      ("generatedBy", JString(GeneratedBy)),
      ("model", JString("segmented-flat-file"))])
  }

  /** The document for grouped segments. */
  function Document(f: RequestFields, recordName: string, fileType: FileType, segments: Segments): Json {
    JObject([
      ("$schema", JString(SchemaVersion)),
      ("$id", JString(SchemaId)),
      ("title", NullableString(f.schemaName)),
      ("description", JString(SchemaDescription)),
      ("type", JString("object")),
      ("x-beanio-config", BeanIOConfig(f, recordName)),
      ("x-metadata", Metadata(fileType)),
      ("properties", JObject(SegmentsProperties(segments)))] + RequiredMember(RequiredSegments(segments)))
  }

  /**
   * generateSchema: a null root, then the record name, then the file type,
   * then a childless root, then a first child that is not an object.
   */
  function GenerateSpec(root: Option<Node>, f: RequestFields): Result<Json, Exception> {
    if root.None? then Err(GenerationError(NullRootMessage))
    else
      match RecordName(f.schemaName)
      case Err(e) => Err(e)
      case Ok(recordName) =>
        if f.fileType.None? then Err(Runtime(NullFileTypeMessage))
        else if root.value.children == [] then Err(GenerationError(NoStructureMessage))
        else if root.value.children[0].typ != "object" then Err(GenerationError(NotObjectMessage))
        else Ok(Document(f, recordName, f.fileType.value, Grouped(root.value.children[0].children)))
  }

  /** generateSchema(root, request). */
  method GenerateSchema(root: Option<Node>, request: FileAnalysisRequest) returns (r: Result<Json, Exception>)
    ensures r == GenerateSpec(root, request.Fields())
    ensures root.None? ==> r == Err(GenerationError(NullRootMessage))
    ensures root.Some? && RecordName(request.schemaName).Ok? && request.fileType.Some? ==>
      (r.Err? <==> root.value.children == [] || root.value.children[0].typ != "object")
  {
    if root.None? {
      return Err(GenerationError(NullRootMessage));
    }
    var f := request.Fields();
    var recordName := ToRecordName(f.schemaName);
    if recordName.Err? {
      return Err(recordName.error);
    }
    if f.fileType.None? {
      return Err(Runtime(NullFileTypeMessage));
    }
    var children := root.value.children;
    if |children| == 0 {
      return Err(GenerationError(NoStructureMessage));
    }
    var item := children[0];
    if item.typ != "object" {
      return Err(GenerationError(NotObjectMessage));
    }
    var segments := GroupFieldsBySegment(item);
    GroupedWellFormed(item.children);
    var properties, globalPosition := BuildProperties(segments);
    var requiredSegments := CollectRequiredSegments(segments);
    var schema := JObject([
      ("$schema", JString(SchemaVersion)),
      ("$id", JString(SchemaId)),
      ("title", NullableString(f.schemaName)),
      ("description", JString(SchemaDescription)),
      ("type", JString("object")),
      ("x-beanio-config", BeanIOConfig(f, recordName.value)),
      ("x-metadata", Metadata(f.fileType.value)),
      ("properties", JObject(properties))] + RequiredMember(requiredSegments));
    r := Ok(schema);
  }

  // ---------------------------------------------------------------- properties

  /** The grouped field list of two segment lists is that of the first, then that of the second. */
  lemma {:induction false} FlattenAppend<S, F, I>(a: OMap<S, OMap<F, I>>, b: OMap<S, OMap<F, I>>)
    ensures Flatten(a + b) == Flatten(a) + Flatten(b)
    decreases |b|
  {
    if b == [] {
      assert a + b == a;
    } else {
      var b' := b[..|b| - 1];
      var tail := SegmentRows(b[|b| - 1]);
      assert Flatten(a + b) == Flatten(a + b') + tail by {
        DropLastOfAppend(a, b);
      }
      FlattenAppend(a, b');
      assert (Flatten(a) + Flatten(b')) + tail == Flatten(a) + (Flatten(b') + tail);
    }
  }

  /**
   * x-position is the index in the grouped field list: field k of segment s
   * is numbered after every field of the segments before it, and that number
   * is where the field sits in Flatten.
   */
  lemma PositionIsFlatIndex(segments: Segments, s: nat, k: nat, base: nat)
    requires s < |segments| && k < |segments[s].1| && base == |Flatten(segments[..s])|
    ensures SegmentsProperties(segments)[s] == (segments[s].0, SegmentSchema(segments[s].0, segments[s].1, base))
    ensures FieldProperties(segments[s].1, base)[k] == (segments[s].1[k].0, FieldSchema(segments[s].1[k].1, base + k))
    ensures base + k < |Flatten(segments)|
    ensures Flatten(segments)[base + k] == (segments[s].0, segments[s].1[k].0, segments[s].1[k].1)
  {
    assert SegmentsProperties(segments)[s] == (segments[s].0, SegmentSchema(segments[s].0, segments[s].1, base)) by {
      SegmentPropertyAt(segments, s);
    }
    assert FieldProperties(segments[s].1, base)[k] == (segments[s].1[k].0, FieldSchema(segments[s].1[k].1, base + k)) by {
      FieldPropertyAt(segments[s].1, base, k);
    }
    FlattenAt(segments, s, k, base);
  }

  /** Segment s's property: its name and its schema numbered after the fields of the segments before it. */
  lemma SegmentPropertyAt(segments: Segments, s: nat)
    requires s < |segments|
    ensures SegmentsProperties(segments)[s] == (segments[s].0, SegmentSchema(segments[s].0, segments[s].1, |Flatten(segments[..s])|))
  {
    assert SegmentsProperties(segments)[s] == SegmentEntry(segments, s);
  }

  /** Field k's property: its name and its schema at position base + k. */
  lemma FieldPropertyAt(fields: Fields, base: int, k: nat)
    requires k < |fields|
    ensures FieldProperties(fields, base)[k] == (fields[k].0, FieldSchema(fields[k].1, base + k))
  {
    assert FieldProperties(fields, base)[k] == FieldEntry(fields, base, k);
  }

  /** Field k of segment s sits at base + k in the grouped field list. */
  lemma FlattenAt<S, F, I>(segments: OMap<S, OMap<F, I>>, s: nat, k: nat, base: nat)
    requires s < |segments| && k < |segments[s].1| && base == |Flatten(segments[..s])|
    ensures base + k < |Flatten(segments)|
    ensures Flatten(segments)[base + k] == (segments[s].0, segments[s].1[k].0, segments[s].1[k].1)
  {
    var front := segments[..s + 1];
    var before := Flatten(segments[..s]);
    var seg := segments[s];
    assert front[..s] == segments[..s] && front[s] == seg;
    var tail := SegmentRows(seg);
    assert Flatten(front) == before + tail;
    assert segments == front + segments[s + 1..];
    FlattenAppend(front, segments[s + 1..]);
    assert Flatten(segments)[|before| + k] == Flatten(front)[|before| + k] == tail[k];
  }

  /** Every entry of Flatten names one of the segments. */
  lemma {:induction false} FlattenSegmentsKnown<S, F, I>(segments: OMap<S, OMap<F, I>>)
    ensures forall t :: t in Flatten(segments) ==> t.0 in Keys(segments)
    decreases |segments|
  {
    if segments != [] {
      var p := segments[..|segments| - 1];
      FlattenSegmentsKnown(p);
      assert Keys(segments) == Keys(p) + [segments[|segments| - 1].0];
    }
  }

  /** Map.get after an append: a different key is looked up in the old entries. */
  lemma GetAppendOther<K, V>(m: OMap<K, V>, e: (K, V), k: K)
    requires k != e.0
    ensures Get(m + [e], k) == Get(m, k)
  {
    assert Keys(m + [e]) == Keys(m) + [e.0];
    IndexOfAppend(Keys(m), e.0, k);
  }

  /** In a valid map, (k, v) is an entry exactly when Get finds v under k. */
  lemma EntryIffGet<K, V>(m: OMap<K, V>, k: K, v: V)
    requires Valid(m)
    ensures (k, v) in m <==> Get(m, k) == Some(v)
  {
    if (k, v) in m {
      var i :| 0 <= i < |m| && m[i] == (k, v);
      GetAt(m, i);
    }
  }

  /** The grouped field list holds exactly the (segment, field, info) triples Lookup finds. */
  lemma {:induction false} FlattenIsLookup(segments: Segments, segment: string, field: string, info: FieldInfo)
    requires WellFormed(segments)
    ensures (segment, field, info) in Flatten(segments) <==> Lookup(segments, segment, field) == Some(info)
    decreases |segments|
  {
    if segments != [] {
      var n := |segments| - 1;
      var p := segments[..n];
      var last := segments[n];
      assert segments == p + [last];
      assert Keys(p) == Keys(segments)[..n];
      assert WellFormed(p);
      FlattenIsLookup(p, segment, field, info);
      var tail := SegmentRows(last);
      assert Flatten(segments) == Flatten(p) + tail;
      if segment == last.0 {
        KeyNotBefore(segments, n);
        FlattenSegmentsKnown(p);
        GetAt(segments, n);
        EntryIffGet(last.1, field, info);
        if (field, info) in last.1 {
          var k :| 0 <= k < |last.1| && last.1[k] == (field, info);
          assert tail[k] == (segment, field, info);
        }
      } else {
        GetAppendOther(p, last, segment);
      }
    }
  }

  /**
   * Every field of the schema comes from a column, and carries the name and
   * type of the last column with its (segment, field) key.
   */
  lemma GroupedFields(columns: seq<Node>, segment: string, field: string, info: FieldInfo)
    ensures (segment, field, info) in Flatten(Grouped(columns)) <==> LastInfo(columns, segment, field) == Some(info)
  {
    GroupedWellFormed(columns);
    FlattenIsLookup(Grouped(columns), segment, field, info);
    GroupedLookup(columns, segment, field);
  }

  /** A key has a last column exactly when some column has that key. */
  lemma LastInfoExists(columns: seq<Node>, segment: string, field: string)
    ensures LastInfo(columns, segment, field).Some? <==> exists i :: 0 <= i < |columns| && KeyOf(columns[i]) == (segment, field)
    ensures LastInfo(columns, segment, field).Some? ==>
      exists i :: 0 <= i < |columns| && KeyOf(columns[i]) == (segment, field) && LastInfo(columns, segment, field) == Some(FieldInfo(columns[i].name, columns[i].typ))
  {
    LastInfoFromColumn(columns, segment, field);
    if exists i :: 0 <= i < |columns| && KeyOf(columns[i]) == (segment, field) {
      var i :| 0 <= i < |columns| && KeyOf(columns[i]) == (segment, field);
      LastInfoOfColumn(columns, segment, field, i);
    }
  }

  /** A found FieldInfo is that of some column with the key. */
  lemma {:induction false} LastInfoFromColumn(columns: seq<Node>, segment: string, field: string)
    ensures LastInfo(columns, segment, field).Some? ==>
      exists i :: 0 <= i < |columns| && KeyOf(columns[i]) == (segment, field) && LastInfo(columns, segment, field) == Some(FieldInfo(columns[i].name, columns[i].typ))
    decreases |columns|
  {
    if columns != [] {
      var n := |columns| - 1;
      var p := columns[..n];
      if KeyOf(columns[n]) != (segment, field) {
        LastInfoFromColumn(p, segment, field);
        if LastInfo(p, segment, field).Some? {
          var i :| 0 <= i < |p| && KeyOf(p[i]) == (segment, field) && LastInfo(p, segment, field) == Some(FieldInfo(p[i].name, p[i].typ));
          assert columns[i] == p[i];
        }
      }
    }
  }

  /** A column with the key means something is found. */
  lemma {:induction false} LastInfoOfColumn(columns: seq<Node>, segment: string, field: string, i: nat)
    requires i < |columns| && KeyOf(columns[i]) == (segment, field)
    ensures LastInfo(columns, segment, field).Some?
    decreases |columns|
  {
    var n := |columns| - 1;
    if i < n {
      var p := columns[..n];
      assert p[i] == columns[i];
      LastInfoOfColumn(p, segment, field, i);
    }
  }


  /** The (segment, field) keys of the grouped field list, in order. */
  function FlatKeys(segments: Segments): seq<(string, string)> {
    var flat := Flatten(segments);
    seq(|flat|, i requires 0 <= i < |flat| => (flat[i].0, flat[i].1))
  }

  /** No (segment, field) key gets two positions. */
  lemma {:induction false} FlatKeysDistinct(segments: Segments)
    requires WellFormed(segments)
    ensures NoDup(FlatKeys(segments))
    decreases |segments|
  {
    if segments != [] {
      var n := |segments| - 1;
      var p := segments[..n];
      var last := segments[n];
      assert Keys(p) == Keys(segments)[..n];
      assert WellFormed(p);
      FlatKeysDistinct(p);
      FlattenSegmentsKnown(p);
      KeyNotBefore(segments, n);
      var flat := Flatten(segments);
      var m := |Flatten(p)|;
      var keys := FlatKeys(segments);
      forall i, j | 0 <= i < j < |keys| ensures keys[i] != keys[j] {
        if j < m {
          assert keys[i] == FlatKeys(p)[i] && keys[j] == FlatKeys(p)[j];
        } else if i < m {
          assert flat[i] in Flatten(p);
          assert keys[j].0 == last.0;
        } else {
          assert keys[i] == (last.0, last.1[i - m].0) && keys[j] == (last.0, last.1[j - m].0);
          assert Keys(last.1)[i - m] == last.1[i - m].0 && Keys(last.1)[j - m] == last.1[j - m].0;
        }
      }
    }
  }

  /** anyMatch over the fields agrees with the fields' required list being non-empty. */
  lemma RequiredFieldsNonEmpty(fields: Fields)
    ensures HasNonNullField(fields) <==> RequiredFields(fields) != []
  {
    if HasNonNullField(fields) {
      var k :| 0 <= k < |fields| && fields[k].1.typ != "null";
      RequiredFieldsAgree(fields, fields[k].0);
    }
    if RequiredFields(fields) != [] {
      RequiredFieldsAgree(fields, RequiredFields(fields)[0]);
    }
  }

  /** A segment is required exactly when one of its fields has a type other than "null". */
  lemma RequiredSegmentsAgree(segments: Segments, name: string)
    ensures name in RequiredSegments(segments) <==> exists s :: 0 <= s < |segments| && segments[s].0 == name && HasNonNullField(segments[s].1)
  {
    if name in RequiredSegments(segments) {
      RequiredSegmentFound(segments, name);
    }
    if exists s :: 0 <= s < |segments| && segments[s].0 == name && HasNonNullField(segments[s].1) {
      var s :| 0 <= s < |segments| && segments[s].0 == name && HasNonNullField(segments[s].1);
      RequiredSegmentListed(segments, s);
    }
  }

  /** Every required segment name comes from a segment with a field not typed "null". */
  lemma {:induction false} RequiredSegmentFound(segments: Segments, name: string)
    requires name in RequiredSegments(segments)
    ensures exists s :: 0 <= s < |segments| && segments[s].0 == name && HasNonNullField(segments[s].1)
    decreases |segments|
  {
    var n := |segments| - 1;
    var p := segments[..n];
    if name in RequiredSegments(p) {
      RequiredSegmentFound(p, name);
      var s :| 0 <= s < |p| && p[s].0 == name && HasNonNullField(p[s].1);
      assert segments[s] == p[s];
    } else {
      assert segments[n].0 == name && HasNonNullField(segments[n].1);
    }
  }

  /** Every segment with a field not typed "null" has its name in the required list. */
  lemma {:induction false} RequiredSegmentListed(segments: Segments, s: nat)
    requires s < |segments| && HasNonNullField(segments[s].1)
    ensures segments[s].0 in RequiredSegments(segments)
    decreases |segments|
  {
    var n := |segments| - 1;
    var p := segments[..n];
    if s < n {
      assert p[s] == segments[s];
      RequiredSegmentListed(p, s);
    }
  }

  /** A record name never contains '_'. */
  lemma {:induction false} CamelPartsHaveNoUnderscore(parts: seq<string>)
    requires forall k :: 0 <= k < |parts| ==> '_' !in parts[k]
    ensures CamelParts(parts).Ok? ==> '_' !in CamelParts(parts).value
    decreases |parts|
  {
    if parts != [] {
      var i := |parts| - 1;
      CamelPartsHaveNoUnderscore(parts[..i]);
      var part := ToLower(parts[i]);
      assert '_' !in part by {
        forall j | 0 <= j < |part| ensures part[j] != '_' {
          assert parts[i][j] != '_';
        }
      }
    }
  }

  /** The record name never contains '_': the separators are all dropped. */
  lemma RecordNameHasNoUnderscore(schemaName: Option<string>)
    ensures RecordName(schemaName).Ok? ==> '_' !in RecordName(schemaName).value
  {
    if schemaName.Some? && schemaName.value != [] {
      var parts := SplitEach(schemaName.value, IsUnderscore);
      SplitPartsHaveNoSeparator(schemaName.value, IsUnderscore);
      forall k | 0 <= k < |parts| ensures '_' !in parts[k] {
        assert !HasSeparator(parts[k], IsUnderscore);
      }
      CamelPartsHaveNoUnderscore(parts);
    }
  }

  /** A name without '_' just becomes lower case. */
  lemma RecordNameOfSinglePart(name: string)
    requires name != [] && '_' !in name
    ensures RecordName(Some(name)) == Ok(ToLower(name))
  {
    assert !HasSeparator(name, IsUnderscore);
    assert CamelParts([name]) == Ok("" + ToLower(name)) by {
      assert [name][..0] == [];
    }
    assert "" + ToLower(name) == ToLower(name);
  }

  /** Two '_'-separated parts: the first in lower case, the second capitalised. */
  lemma RecordNameOfTwoParts(a: string, b: string)
    requires a != [] && b != [] && '_' !in a && '_' !in b
    ensures var lower := ToLower(b);
      RecordName(Some(a + "_" + b)) == Ok(ToLower(a) + [UpperChar(lower[0])] + lower[1..])
  {
    var name := a + "_" + b;
    assert !HasSeparator(a, IsUnderscore) && !HasSeparator(b, IsUnderscore);
    PiecesAfterSeparator(a, '_', b, IsUnderscore);
    PiecesWithoutSeparator(b, IsUnderscore);
    assert HasSeparator(name, IsUnderscore) by {
      assert IsUnderscore(name[|a|]);
    }
    var parts := [a, b];
    assert SplitEach(name, IsUnderscore) == parts;
    assert parts[..0] == [] && parts[..2] == parts;
    CamelPartsStep(parts, 0, "");
    CamelPartsStep(parts, 1, "" + ToLower(a));
    var lower := ToLower(b);
    if |lower| == 1 {
      assert lower[1..] == [];
    }
    assert "" + ToLower(a) == ToLower(a);
  }

  /** The documented conversion: ORDER_DOCUMENT becomes orderDocument. */
  lemma RecordNameExample(a: string, b: string)
    requires a == "ORDER" && b == "DOCUMENT"
    ensures RecordName(Some(a + "_" + b)) == Ok("orderDocument")
  {
    assert '_' !in a && '_' !in b by {}
    RecordNameOfTwoParts(a, b);
    assert ToLower(a) == "order";
    assert ToLower(b) == "document";
    assert "order" + [UpperChar('d')] + "ocument" == "orderDocument" by {}
  }

  /** An empty part between two separators fails at charAt(0): A__B. */
  lemma RecordNameOfDoubleUnderscore()
    ensures RecordName(Some("A__B")) == Err(Runtime(EmptyStringCharAtMessage))
  {
    var rest := "" + ['_'] + "B";
    assert "A__B" == "A" + ['_'] + rest;
    PiecesAfterSeparator("A", '_', rest, IsUnderscore);
    PiecesAfterSeparator("", '_', "B", IsUnderscore);
    PiecesWithoutSeparator("B", IsUnderscore);
    assert HasSeparator("A__B", IsUnderscore) by {
      assert IsUnderscore("A__B"[1]);
    }
    var parts := ["A", "", "B"];
    assert Pieces("A__B", IsUnderscore) == parts;
    assert DropTrailingEmpty(parts) == parts;
    assert parts[1] == [];
  }

  /** The three GENERATION_ERROR cases of generateSchema. */
  lemma GenerationErrors(root: Option<Node>, f: RequestFields)
    requires RecordName(f.schemaName).Ok? && f.fileType.Some?
    ensures root.None? ==> GenerateSpec(root, f) == Err(GenerationError(NullRootMessage))
    ensures root.Some? && root.value.children == [] ==> GenerateSpec(root, f) == Err(GenerationError(NoStructureMessage))
    ensures root.Some? && root.value.children != [] && root.value.children[0].typ != "object" ==> GenerateSpec(root, f) == Err(GenerationError(NotObjectMessage))
    ensures root.Some? && root.value.children != [] && root.value.children[0].typ == "object" ==> GenerateSpec(root, f).Ok?
  {
  }

  /** The configuration block echoes the delimiter and quote options, with their defaults. */
  lemma ConfigEchoesOptions(f: RequestFields, recordName: string)
    ensures var config := BeanIOConfig(f, recordName);
      && Member(config, "delimiter") == Some(JString(GetParserOptionOr(f, "delimiter", ",")))
      && Member(config, "quoteChar") == Some(JString(GetParserOptionOr(f, "quoteChar", "\"")))
      && (f.parserOptions.None? || "delimiter" !in f.parserOptions.value ==> Member(config, "delimiter") == Some(JString(",")))
  {
    var config := BeanIOConfig(f, recordName);
    assert Keys(config.members) == ["format", "delimiter", "quoteChar", "recordName", "strict"];
    assert config.members[1].0 == "delimiter" && config.members[0].0 != "delimiter";
    assert config.members[2].0 == "quoteChar" && config.members[0].0 != "quoteChar" && config.members[1].0 != "quoteChar";
  }
}
