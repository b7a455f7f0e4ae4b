/**
 * JsonSchema2PojoGenerator: the flat Header/Record JSON Schema used for CSV.
 * Every column becomes a camelCase property, repeated names are numbered,
 * and the Header and Record definitions share one property map.
 */
module PojoGenerator {
  import opened Wrappers
  import opened Text
  import opened OrderedMap
  import opened Model
  import opened Json
  import opened Request

  const SchemaVersion := "http://json-schema.org/draft-07/schema#"
  const NullRootMessage := "Root element cannot be null"
  const NoStructureMessage := "No structure found in CSV"
  const NotObjectMessage := "Expected object type for CSV row"

  /** An AnalyzerException built without a file type. */
  function GenerationError(message: string): Exception {
    AnalyzerException("GENERATION_ERROR", None, message)
  }

  // ---------------------------------------------------------------- names

  /** A character the regex [A-Za-z0-9_] matches. */
  predicate IsWordChar(c: char) {
    IsAsciiLetterOrDigit(c) || c == '_'
  }

  /** replaceAll("[^A-Za-z0-9_]", "_"): every other character becomes '_'. */
  function Normalize(name: string): (r: string)
    ensures |r| == |name|
    ensures forall i :: 0 <= i < |r| ==> IsWordChar(r[i])
    ensures forall i :: 0 <= i < |r| ==> (IsWordChar(name[i]) <==> r[i] == name[i])
  {
    seq(|name|, i requires 0 <= i < |name| => if IsWordChar(name[i]) then name[i] else '_')
  }

  /** A part with its first character upper-cased. */
  function Capitalize(part: string): (r: string)
    ensures |r| == |part|
  {
    if part == [] then [] else [UpperChar(part[0])] + part[1..]
  }

  /**
   * The camel-cased parts: the first part lowercased, each later part
   * lowercased with its first character upper-cased (an empty part adds nothing).
   */
  function CamelOf(parts: seq<string>): string
    decreases |parts|
  {
    if parts == [] then ""
    else
      var i := |parts| - 1;
      var part := ToLower(parts[i]);
      if i == 0 then part else CamelOf(parts[..i]) + Capitalize(part)
  }

  /** toCamelCase: the empty string stays empty, otherwise the parts between runs of '_' or whitespace. */
  function ToCamelCaseSpec(s: string): string {
    if s == [] then s else CamelOf(SplitRuns(s, IsUnderscoreOrRegexSpace))
  }

  /** columnNameToCamelCase. */
  function CamelName(columnName: string): string {
    ToCamelCaseSpec(Normalize(columnName))
  }

  /** One more part: the first lowercased, a later one lowercased and capitalised. */
  lemma CamelOfStep(parts: seq<string>, i: nat)
    requires i < |parts|
    ensures CamelOf(parts[..i + 1]) == if i == 0 then ToLower(parts[0]) else CamelOf(parts[..i]) + Capitalize(ToLower(parts[i]))
  {
    PrefixOfPrefix(parts, i);
  }

  /** toCamelCase. */
  method ToCamelCase(str: string) returns (r: string)
    ensures r == ToCamelCaseSpec(str)
  {
    if |str| == 0 {
      return str;
    }
    var parts := SplitRuns(str, IsUnderscoreOrRegexSpace);
    r := AppendParts(parts);
  }

  /** The StringBuilder loop of toCamelCase over the split parts. */
  method AppendParts(parts: seq<string>) returns (r: string)
    ensures r == CamelOf(parts)
  {
    r := "";
    for i := 0 to |parts|
      invariant r == CamelOf(parts[..i])
    {
      var part := ToLower(parts[i]);
      ghost var before := r;
      r := AppendPart(r, part, i == 0);
      assert r == CamelOf(parts[..i + 1]) by {
        CamelOfStep(parts, i);
        if i == 0 {
          assert before == [];
          assert r == part;
        } else {
          assert r == before + Capitalize(part);
        }
      }
    }
    WholePrefix(parts, |parts|);
  }

  /** One iteration of the loop: the first part as it is, a later one capitalised, an empty one skipped. */
  method AppendPart(result: string, part: string, first: bool) returns (r: string)
    ensures r == if first then result + part else result + Capitalize(part)
  {
    r := result;
    if first {
      r := r + part;
    } else if |part| != 0 {
      r := r + [UpperChar(part[0])];
      if |part| > 1 {
        r := r + part[1..];
      } else {
        assert part[1..] == [];
      }
    } else {
      assert r + Capitalize(part) == r;
    }
  }

  /** columnNameToCamelCase. */
  method ColumnNameToCamelCase(columnName: string) returns (r: string)
    ensures r == CamelName(columnName)
  {
    var normalized := Normalize(columnName);
    r := ToCamelCase(normalized);
  }

  /** Camel-casing parts made of ASCII letters and digits yields ASCII letters and digits. */
  lemma {:induction false} CamelOfIsAlphanumeric(parts: seq<string>)
    requires forall k, j :: 0 <= k < |parts| && 0 <= j < |parts[k]| ==> IsAsciiLetterOrDigit(parts[k][j])
    ensures forall j :: 0 <= j < |CamelOf(parts)| ==> IsAsciiLetterOrDigit(CamelOf(parts)[j])
    decreases |parts|
  {
    if parts != [] {
      var i := |parts| - 1;
      CamelOfIsAlphanumeric(parts[..i]);
      var part := ToLower(parts[i]);
      assert forall j :: 0 <= j < |part| ==> IsAsciiLetterOrDigit(part[j]) by {
        forall j | 0 <= j < |part| ensures IsAsciiLetterOrDigit(part[j]) {
          assert IsAsciiLetterOrDigit(parts[i][j]);
        }
      }
      if i > 0 && part != [] {
        assert Capitalize(part)[0] == UpperChar(part[0]);
        assert forall j :: 1 <= j < |part| ==> Capitalize(part)[j] == part[j];
      }
    }
  }

  /** A camel-cased column name contains only ASCII letters and digits. */
  lemma CamelNameIsAlphanumeric(columnName: string)
    ensures forall j :: 0 <= j < |CamelName(columnName)| ==> IsAsciiLetterOrDigit(CamelName(columnName)[j])
  {
    var s := Normalize(columnName);
    if s != [] {
      var parts := SplitRuns(s, IsUnderscoreOrRegexSpace);
      SplitPartsHaveNoSeparator(s, IsUnderscoreOrRegexSpace);
      forall k, j | 0 <= k < |parts| && 0 <= j < |parts[k]| ensures IsAsciiLetterOrDigit(parts[k][j]) {
        assert !HasSeparator(parts[k], IsUnderscoreOrRegexSpace);
        assert !IsUnderscoreOrRegexSpace(parts[k][j]);
        SplitPartsAreDrawnFrom(s, IsUnderscoreOrRegexSpace, k, j);
      }
      CamelOfIsAlphanumeric(parts);
    }
  }

  /** Every character of a split part is a character of the text. */
  lemma SplitPartsAreDrawnFrom(s: string, sep: char -> bool, k: nat, j: nat)
    requires k < |SplitRuns(s, sep)| && j < |SplitRuns(s, sep)[k]|
    ensures SplitRuns(s, sep)[k][j] in s
  {
    if HasSeparator(s, sep) {
      var p := Pieces(s, sep);
      var q := [p[0]] + NonEmpty(p[1..]);
      var part := SplitRuns(s, sep)[k];
      assert part == q[k];
      if k > 0 {
        assert q[k] in p[1..];
        var m :| 0 <= m < |p[1..]| && p[1..][m] == part;
        PieceCharsInText(s, sep, m + 1, j);
      } else {
        PieceCharsInText(s, sep, 0, j);
      }
    }
  }

  /** Every character of a piece is a character of the text. */
  lemma {:induction false} PieceCharsInText(s: string, sep: char -> bool, k: nat, j: nat)
    requires k < |Pieces(s, sep)| && j < |Pieces(s, sep)[k]|
    ensures Pieces(s, sep)[k][j] in s
    decreases |s|
  {
    if s != [] {
      var rest := Pieces(s[1..], sep);
      if sep(s[0]) {
        assert k > 0 && Pieces(s, sep)[k] == rest[k - 1];
        PieceCharsInText(s[1..], sep, k - 1, j);
      } else if k == 0 {
        if j > 0 {
          assert Pieces(s, sep)[0][j] == rest[0][j - 1];
          PieceCharsInText(s[1..], sep, 0, j - 1);
        }
      } else {
        assert Pieces(s, sep)[k] == rest[k];
        PieceCharsInText(s[1..], sep, k, j);
      }
    }
  }

  /** Joining word parts with '_' and camel-casing gives the parts' camel form. */
  lemma CamelNameOfJoin(parts: seq<string>)
    requires |parts| >= 1
    requires forall k :: 0 <= k < |parts| ==> parts[k] != "" && forall j :: 0 <= j < |parts[k]| ==> IsAsciiLetterOrDigit(parts[k][j])
    ensures CamelName(Join(parts, '_')) == CamelOf(parts)
  {
    var s := Join(parts, '_');
    JoinOfWordParts(parts);
    assert Normalize(s) == s;
    CamelNameOfWordParts(s, parts);
  }

  /** A column name that normalises to word parts joined by '_' camel-cases to those parts' camel form. */
  lemma CamelNameOfWordParts(name: string, parts: seq<string>)
    requires |parts| >= 1
    requires forall k :: 0 <= k < |parts| ==> parts[k] != "" && forall j :: 0 <= j < |parts[k]| ==> IsAsciiLetterOrDigit(parts[k][j])
    requires Normalize(name) == Join(parts, '_')
    ensures CamelName(name) == CamelOf(parts)
  {
    var s := Join(parts, '_');
    forall k | 0 <= k < |parts| ensures !HasSeparator(parts[k], IsUnderscoreOrRegexSpace) {
      assert forall j :: 0 <= j < |parts[k]| ==> !IsUnderscoreOrRegexSpace(parts[k][j]) by {
        forall j | 0 <= j < |parts[k]| ensures !IsUnderscoreOrRegexSpace(parts[k][j]) {
          assert IsAsciiLetterOrDigit(parts[k][j]);
        }
      }
    }
    SplitOfJoin(parts, '_', IsUnderscoreOrRegexSpace);
    assert s != [] by {
      assert |parts[0]| > 0;
      JoinStartsWithFirst(parts);
    }
    assert CamelName(name) == ToCamelCaseSpec(s);
  }

  /** Letters, digits and '_' joined by '_' are all word characters. */
  lemma {:induction false} JoinOfWordParts(parts: seq<string>)
    requires forall k :: 0 <= k < |parts| ==> forall j :: 0 <= j < |parts[k]| ==> IsAsciiLetterOrDigit(parts[k][j])
    ensures forall i :: 0 <= i < |Join(parts, '_')| ==> IsWordChar(Join(parts, '_')[i])
    decreases |parts|
  {
    if |parts| > 1 {
      JoinOfWordParts(parts[1..]);
      var rest := Join(parts[1..], '_');
      var s := Join(parts, '_');
      forall i | 0 <= i < |s| ensures IsWordChar(s[i]) {
        if i < |parts[0]| {
          assert s[i] == parts[0][i];
        } else if i > |parts[0]| {
          assert s[i] == rest[i - |parts[0]| - 1];
        }
      }
    }
  }

  /** The joined text is at least as long as its first part. */
  lemma JoinStartsWithFirst(parts: seq<string>)
    requires |parts| >= 1
    ensures |Join(parts, '_')| >= |parts[0]|
  {
  }

  /** Four parts camel-case to the first lowercased followed by the others capitalised. */
  lemma CamelOfFour(a: string, b: string, c: string, d: string)
    ensures CamelOf([a, b, c, d]) == ToLower(a) + Capitalize(ToLower(b)) + Capitalize(ToLower(c)) + Capitalize(ToLower(d))
  {
    var parts := [a, b, c, d];
    assert parts[..0] == [];
    CamelOfStep(parts, 0);
    CamelOfStep(parts, 1);
    CamelOfStep(parts, 2);
    CamelOfStep(parts, 3);
    assert parts[..4] == parts;
  }

  /** EXPENSE.TYPE_TOWN/CITY becomes expenseTypeTownCity. */
  lemma CamelNameExample(a: string, b: string, c: string, d: string)
    requires a == "EXPENSE" && b == "TYPE" && c == "TOWN" && d == "CITY"
    ensures CamelName(a + "." + b + "_" + c + "/" + d) == "expenseTypeTownCity"
  {
    var parts := [a, b, c, d];
    ExampleNormalized(a, b, c, d);
    assert forall k :: 0 <= k < |parts| ==> parts[k] != "" && forall j :: 0 <= j < |parts[k]| ==> IsAsciiLetterOrDigit(parts[k][j]) by {}
    CamelNameOfWordParts(a + "." + b + "_" + c + "/" + d, parts);
    CamelOfExample(a, b, c, d);
  }

  /** The separators of EXPENSE.TYPE_TOWN/CITY all normalize to '_'. */
  lemma ExampleNormalized(a: string, b: string, c: string, d: string)
    requires a == "EXPENSE" && b == "TYPE" && c == "TOWN" && d == "CITY"
    ensures Normalize(a + "." + b + "_" + c + "/" + d) == Join([a, b, c, d], '_')
  {
    JoinFour(a, b, c, d, '_');
    assert Normalize(a + "." + b + "_" + c + "/" + d) == a + ['_'] + (b + ['_'] + (c + ['_'] + d));
  }

  /** Four parts joined. */
  lemma JoinFour(a: string, b: string, c: string, d: string, sep: char)
    ensures Join([a, b, c, d], sep) == a + [sep] + (b + [sep] + (c + [sep] + d))
  {
    assert Join([c, d], sep) == c + [sep] + d by {
      assert [c, d][1..] == [d];
    }
    assert Join([b, c, d], sep) == b + [sep] + Join([c, d], sep) by {
      assert [b, c, d][1..] == [c, d];
    }
    assert Join([a, b, c, d], sep) == a + [sep] + Join([b, c, d], sep) by {
      assert [a, b, c, d][1..] == [b, c, d];
    }
  }

  /** The parts EXPENSE, TYPE, TOWN, CITY camel-case to expenseTypeTownCity. */
  lemma CamelOfExample(a: string, b: string, c: string, d: string)
    requires a == "EXPENSE" && b == "TYPE" && c == "TOWN" && d == "CITY"
    ensures CamelOf([a, b, c, d]) == "expenseTypeTownCity"
  {
    CamelOfFour(a, b, c, d);
    CamelWordsExample(a, b);
    CamelWordsExample2(c, d);
  }

  /** EXPENSE then TYPE give expenseType. */
  lemma CamelWordsExample(a: string, b: string)
    requires a == "EXPENSE" && b == "TYPE"
    ensures ToLower(a) + Capitalize(ToLower(b)) == "expenseType"
  {
    assert ToLower(a) == "expense";
    assert ToLower(b) == "type" && Capitalize("type") == "Type";
  }

  /** TOWN then CITY, both capitalised, give TownCity. */
  lemma CamelWordsExample2(c: string, d: string)
    requires c == "TOWN" && d == "CITY"
    ensures Capitalize(ToLower(c)) + Capitalize(ToLower(d)) == "TownCity"
  {
    assert ToLower(c) == "town" && Capitalize("town") == "Town";
    assert ToLower(d) == "city" && Capitalize("city") == "City";
  }

  // ---------------------------------------------------------------- types

  /** mapJsonSchemaType: integer, number and boolean pass through; null, "null" and everything else become string. */
  function MapJsonSchemaType(internalType: Option<string>): (r: string)
    ensures r == "integer" || r == "number" || r == "boolean" || r == "string"
    ensures internalType.Some? && internalType.value in {"integer", "number", "boolean"} ==> r == internalType.value
    ensures internalType.None? || internalType.value !in {"integer", "number", "boolean"} ==> r == "string"
  {
    match internalType
    case None => "string"
    case Some(t) =>
      if t == "integer" then "integer"
      else if t == "number" then "number"
      else if t == "boolean" then "boolean"
      else "string"
  }

  // ---------------------------------------------------------------- flat properties

  /** The camel-cased base name of every column. */
  function BaseNames(columns: seq<Node>): seq<string> {
    seq(|columns|, i requires 0 <= i < |columns| => CamelName(columns[i].name))
  }

  /** The number of the i-th base name among the base names up to and including it. */
  function Occurrence(bases: seq<string>, i: nat): nat
    requires i < |bases|
  {
    multiset(bases[..i + 1])[bases[i]]
  }

  /** The property name of the i-th column: its base name, numbered from the second occurrence on. */
  function FlatName(bases: seq<string>, i: nat): string
    requires i < |bases|
  {
    var k := Occurrence(bases, i);
    if k == 1 then bases[i] else bases[i] + NatToString(k)
  }

  /** The field definition of one column. */
  function FieldDef(column: Node): Json {
    JObject([
      ("type", JString(MapJsonSchemaType(Some(column.typ)))),
      ("description", JString("CSV column: " + column.name))])
  }

  /** The (property name, definition) put for every column, in column order. */
  function FlatEntries(columns: seq<Node>): seq<(string, Json)> {
    var bases := BaseNames(columns);
    seq(|columns|, i requires 0 <= i < |columns| => (FlatName(bases, i), FieldDef(columns[i])))
  }

  /** buildFlatProperties: the properties map and the per-base-name counters. */
  method BuildFlatProperties(item: Node) returns (properties: OMap<string, Json>)
    ensures properties == PutAll(FlatEntries(item.children))
  {
    properties := [];
    var fieldNameCounts: map<string, int> := map[];
    ghost var bases := BaseNames(item.children);
    ghost var entries := FlatEntries(item.children);
    var i := 0;
    assert entries[..0] == [];
    assert properties == PutAll(entries[..0]);
    assert bases[..0] == [];
    assert Counts(fieldNameCounts, bases[..0]);
    while i < |item.children|
      invariant 0 <= i <= |item.children|
      invariant properties == PutAll(entries[..i])
      invariant Counts(fieldNameCounts, bases[..i])
    {
      var field := item.children[i];
      var columnName := field.name;
      var baseName := ColumnNameToCamelCase(columnName);
      assert baseName == bases[i];
      CountStep(bases, i, fieldNameCounts);
      var count := (if baseName in fieldNameCounts then fieldNameCounts[baseName] else 0) + 1;
      fieldNameCounts := fieldNameCounts[baseName := count];
      var flatFieldName := if count == 1 then baseName else baseName + NatToString(count);
      var fieldDef := FieldDef(field);
      assert entries[i] == (flatFieldName, fieldDef);
      PutAllStep(entries, i);
      properties := Put(properties, flatFieldName, fieldDef);
      assert properties == PutAll(entries[..i + 1]);
      assert Counts(fieldNameCounts, bases[..i + 1]);
      i := i + 1;
    }
    WholePrefix(entries, i);
  }

  /** The counters hold, for every base name, how often it occurs among the names seen. */
  ghost predicate Counts(counts: map<string, int>, seen: seq<string>) {
    forall b :: (if b in counts then counts[b] else 0) == multiset(seen)[b]
  }

  /** getOrDefault + 1 is the occurrence number of the next name, and put keeps the counters right. */
  lemma CountStep(bases: seq<string>, i: nat, counts: map<string, int>)
    requires i < |bases| && Counts(counts, bases[..i])
    ensures (if bases[i] in counts then counts[bases[i]] else 0) + 1 == Occurrence(bases, i)
    ensures Counts(counts[bases[i] := Occurrence(bases, i)], bases[..i + 1])
  {
    assert bases[..i + 1] == bases[..i] + [bases[i]];
  }

  /** Columns sharing a base name get different property names. */
  lemma SameBaseNamesNumbered(bases: seq<string>, i: nat, j: nat)
    requires i < j < |bases| && bases[i] == bases[j]
    ensures Occurrence(bases, i) < Occurrence(bases, j)
    ensures FlatName(bases, i) != FlatName(bases, j)
    ensures FlatName(bases, j) == bases[j] + NatToString(Occurrence(bases, j))
  {
    var b := bases[i];
    assert bases[..j + 1] == bases[..i + 1] + bases[i + 1..j + 1];
    assert bases[j] in bases[i + 1..j + 1] by {
      assert bases[i + 1..j + 1][j - i - 1] == bases[j];
    }
    var ki, kj := Occurrence(bases, i), Occurrence(bases, j);
    assert ki >= 1 by {
      assert bases[..i + 1][i] == b;
    }
    assert kj >= 2;
    NatToStringDenotes(kj);
    if ki == 1 {
      assert |FlatName(bases, j)| > |b|;
    } else {
      var x, y := NatToString(ki), NatToString(kj);
      if b + x == b + y {
        assert x == (b + x)[|b|..] && y == (b + y)[|b|..];
        NatToStringInjective(ki, kj);
      }
    }
  }

  /** One property per column exactly when no two columns get the same property name; otherwise fewer. */
  lemma PropertyCount(columns: seq<Node>)
    ensures |PutAll(FlatEntries(columns))| <= |columns|
    ensures |PutAll(FlatEntries(columns))| == |columns| <==> NoDup(Keys(FlatEntries(columns)))
  {
    PutAllSize(FlatEntries(columns));
  }

  /** Each property holds the definition of the last column that got its name. */
  lemma LastColumnWins(columns: seq<Node>, name: string)
    ensures Get(PutAll(FlatEntries(columns)), name) == LastValue(FlatEntries(columns), name)
    ensures Keys(PutAll(FlatEntries(columns))) == Distinct(Keys(FlatEntries(columns)))
  {
    PutAllGet(FlatEntries(columns), name);
    PutAllKeys(FlatEntries(columns));
  }

  /**
   * The numbering does not rule out clashes across base names: a column
   * whose own base name is b2 and the second column named b get the same
   * property name, so one property is lost.
   */
  lemma NumberedNameCanClash(bases: seq<string>)
    requires bases == ["a2", "a", "a"]
    ensures FlatName(bases, 0) == FlatName(bases, 2)
    ensures !NoDup(seq(3, i requires 0 <= i < 3 => FlatName(bases, i)))
  {
    assert bases[..1] == ["a2"] && bases[..3] == bases;
    assert multiset(bases)["a"] == 2;
    assert NatToString(2) == "2";
    var names := seq(3, i requires 0 <= i < 3 => FlatName(bases, i));
    assert names[0] == names[2];
  }

  // ---------------------------------------------------------------- the document

  /** A $ref object. */
  function Ref(target: string): Json {
    JObject([("$ref", JString(target))])
  }

  /** The Header or Record definition over the shared properties. */
  function Definition(title: string, properties: OMap<string, Json>): Json {
    JObject([("title", JString(title)), ("type", JString("object")), ("properties", JObject(properties))])
  }

  /** The root's properties: a Header reference and an array of Record references. */
  function RootProperties(): Json {
    JObject([
      ("header", Ref("#/$defs/Header")),
      ("records", JObject([("type", JString("array")), ("items", Ref("#/$defs/Record"))]))])
  }

  /** The document for the flat properties. */
  function Document(f: RequestFields, properties: OMap<string, Json>): Json {
    JObject([
      ("$schema", JString(SchemaVersion)),
      ("title", NullableString(f.schemaName)),
      ("type", JString("object")),
      ("properties", RootProperties()),
      ("$defs", JObject([
        ("Header", Definition("Header", properties)),
        ("Record", Definition("Record", properties))]))])
  }

  /** generateSchema: a null root, a childless root or a first child that is not an object is GENERATION_ERROR. */
  function GenerateSpec(root: Option<Node>, f: RequestFields): Result<Json, Exception> {
    if root.None? then Err(GenerationError(NullRootMessage))
    else if root.value.children == [] then Err(GenerationError(NoStructureMessage))
    else if root.value.children[0].typ != "object" then Err(GenerationError(NotObjectMessage))
    else Ok(Document(f, PutAll(FlatEntries(root.value.children[0].children))))
  }

  /** generateSchema(root, request). */
  method GenerateSchema(root: Option<Node>, request: FileAnalysisRequest) returns (r: Result<Json, Exception>)
    ensures r == GenerateSpec(root, request.Fields())
    ensures r.Err? <==> root.None? || root.value.children == [] || root.value.children[0].typ != "object"
    ensures r.Err? ==> r.error.AnalyzerException? && r.error.code == "GENERATION_ERROR"
  {
    if root.None? {
      return Err(GenerationError(NullRootMessage));
    }
    var children := root.value.children;
    if |children| == 0 {
      return Err(GenerationError(NoStructureMessage));
    }
    var item := children[0];
    if item.typ != "object" {
      return Err(GenerationError(NotObjectMessage));
    }
    var flatProperties := BuildFlatProperties(item);
    var schema := JObject([
      ("$schema", JString(SchemaVersion)),
      ("title", NullableString(request.schemaName)),
      ("type", JString("object")),
      ("properties", RootProperties()),
      ("$defs", JObject([
        ("Header", Definition("Header", flatProperties)),
        ("Record", Definition("Record", flatProperties))]))]);
    r := Ok(schema);
  }

  /** The document has exactly five top-level keys, in this order; unlike BeanIO's there is no x- extension key among them. */
  lemma DocumentKeys(f: RequestFields, properties: OMap<string, Json>)
    ensures Keys(Document(f, properties).members) == ["$schema", "title", "type", "properties", "$defs"]
  {
  }

  /** The root's properties are exactly header, a reference to Header, and records, an array of Record references. */
  lemma DocumentRootProperties(f: RequestFields, properties: OMap<string, Json>)
    ensures Member(Document(f, properties), "properties") == Some(RootProperties())
    ensures Keys(RootProperties().members) == ["header", "records"]
    ensures Member(RootProperties(), "header") == Some(Ref("#/$defs/Header"))
    ensures Member(RootProperties(), "records") == Some(JObject([("type", JString("array")), ("items", Ref("#/$defs/Record"))]))
  {
    var doc := Document(f, properties);
    assert Keys(doc.members) == ["$schema", "title", "type", "properties", "$defs"];
    assert forall j :: 0 <= j < 3 ==> doc.members[j].0 != "properties";
    assert Keys(RootProperties().members) == ["header", "records"];
  }

  /** Header and Record are both objects over the same flat properties, titled Header and Record. */
  lemma DocumentDefinitions(f: RequestFields, properties: OMap<string, Json>)
    ensures Member(Document(f, properties), "$defs").Some?
    ensures var defs := Member(Document(f, properties), "$defs").value;
      && Member(defs, "Header") == Some(Definition("Header", properties))
      && Member(defs, "Record") == Some(Definition("Record", properties))
  {
    var doc := Document(f, properties);
    assert Keys(doc.members) == ["$schema", "title", "type", "properties", "$defs"];
    assert forall j :: 0 <= j < 4 ==> doc.members[j].0 != "$defs";
    assert Member(doc, "$defs") == Some(doc.members[4].1);
    var defs := doc.members[4].1;
    assert Keys(defs.members) == ["Header", "Record"];
  }

  /** A generated document's Header and Record both hold the columns' flat properties. */
  lemma GeneratedDefinitions(root: Option<Node>, f: RequestFields)
    requires GenerateSpec(root, f).Ok?
    ensures var doc := GenerateSpec(root, f).value;
      var properties := PutAll(FlatEntries(root.value.children[0].children));
      && Member(doc, "$defs").Some?
      && Member(Member(doc, "$defs").value, "Header") == Some(Definition("Header", properties))
      && Member(Member(doc, "$defs").value, "Record") == Some(Definition("Record", properties))
  {
    var properties := PutAll(FlatEntries(root.value.children[0].children));
    DocumentDefinitions(f, properties);
  }
}
