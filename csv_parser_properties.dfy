/** What CsvFileParser promises about its options, columns, samples, types and merges. */
module CsvParserProperties {
  import opened Wrappers
  import opened Text
  import opened OrderedMap
  import opened Model
  import opened Request
  import opened CsvParser

  // ---------------------------------------------------------------- BOM and options

  /** The options read depend on the parserOptions map alone. */
  lemma ReadOptionsOfOptions(f1: RequestFields, f2: RequestFields)
    requires f1.parserOptions == f2.parserOptions
    ensures ReadOptions(f1) == ReadOptions(f2)
  {
    forall key, default ensures GetParserOptionOr(f1, key, default) == GetParserOptionOr(f2, key, default) {
    }
  }

  /**
   * A leading byte order mark is invisible to parsing: the text with one
   * BOM in front parses exactly like the text without it.
   */
  lemma BomIsTransparent(f: RequestFields, env: CsvEnv, text: string)
    requires f.schemaName.Some?
    requires !IsBlank(text) && text[0] != Bom
    ensures ParseSpec(f.(fileContent := Some([Bom] + text)), env) == ParseSpec(f.(fileContent := Some(text)), env)
  {
    var withBom := [Bom] + text;
    assert !IsBlank(withBom) by {
      var i :| 0 <= i < |text| && !IsWhitespace(text[i]);
      assert withBom[i + 1] == text[i];
    }
    assert RemoveBom(withBom) == text by {
      assert withBom[1..] == text;
    }
    var f1 := f.(fileContent := Some(withBom));
    var f2 := f.(fileContent := Some(text));
    ReadOptionsOfOptions(f1, f2);
  }

  /** Removing the BOM removes one character at most: a second BOM stays. */
  lemma RemoveBomRemovesOne(s: string)
    ensures RemoveBom([Bom, Bom] + s) == [Bom] + s
  {
    assert ([Bom, Bom] + s)[1..] == [Bom] + s;
  }

  /** The parser accepts a CSV request for parsing exactly when parse() does not reject its content as missing. */
  lemma CanParseAgreesWithParse(f: RequestFields, env: CsvEnv)
    requires f.schemaName.Some? && f.fileType == Some(CSV)
    ensures CanParse(Some(f)) <==> ParseSpec(f, env) != Err(CsvError("INVALID_CSV", NoContentMessage))
  {
  }

  /**
   * The reader's outcome decides parse() once the options are read: no
   * records is EMPTY_CSV, a reader failure is PARSE_ERROR with the reader's
   * message, and a tree comes back only from a non-empty list of records.
   */
  lemma ReaderOutcome(f: RequestFields, env: CsvEnv, o: CsvOptions)
    requires f.schemaName.Some? && !NullOrBlank(f.fileContent) && ReadOptions(f) == Ok(o)
    requires o.delimiter != [] && o.quoteChar != [] && o.escapeChar != []
    ensures var read := env.read(RemoveBom(f.fileContent.value), Dialect(o.delimiter[0], o.quoteChar[0], o.escapeChar[0]), o.skipLines);
      && (read == Ok([]) ==> ParseSpec(f, env) == Err(CsvError("EMPTY_CSV", EmptyCsvMessage)))
      && (read.Err? ==> ParseSpec(f, env) == Err(ParseFailure(read.error)))
      && (ParseSpec(f, env).Ok? ==> read.Ok? && read.value != [])
  {
  }

  /** An empty delimiter, quote or escape option makes charAt(0) throw, which parse() reports as PARSE_ERROR. */
  lemma EmptyDialectOption(f: RequestFields, env: CsvEnv, o: CsvOptions)
    requires f.schemaName.Some? && !NullOrBlank(f.fileContent) && ReadOptions(f) == Ok(o)
    requires o.delimiter == [] || o.quoteChar == [] || o.escapeChar == []
    ensures ParseSpec(f, env) == Err(ParseFailure(EmptyStringCharAtMessage))
  {
  }

  /** Without options (a null map or an empty one) parse() uses the documented defaults. */
  lemma DefaultsWithoutOptions(f: RequestFields)
    requires f.parserOptions == None || f.parserOptions == Some(map[])
    ensures ReadOptions(f) == Ok(DefaultOptions)
  {
    assert NatToString(100) == "100";
    ParseIntOfNatToString(0);
    ParseIntOfNatToString(100);
  }

  /** A skipLines value that is not a decimal int is INVALID_OPTION, reported before anything else is read. */
  lemma InvalidSkipLines(f: RequestFields, env: CsvEnv, value: string)
    requires f.schemaName.Some? && !NullOrBlank(f.fileContent)
    requires f.parserOptions.Some? && "skipLines" in f.parserOptions.value && f.parserOptions.value["skipLines"] == Some(value)
    requires ParseInt(value).None?
    ensures ParseSpec(f, env) == Err(InvalidOption(value))
    ensures InvalidOption(value).code == "INVALID_OPTION" && InvalidOption(value).fileType == Some(CSV)
    ensures InvalidOption(value).message == "Invalid numeric option value: " + "For input string: \"" + value + "\""
  {
    assert GetParserOptionOr(f, "skipLines", "0") == value;
    assert ReadOptions(f) == Err(InvalidOption(value));
    MessageRegrouped("Invalid numeric option value: ", "For input string: \"", value, "\"");
  }

  /**
   * A skipLines that parses (or is absent) and a sampleRows value that is not
   * a decimal int: parseInt of sampleRows throws, and parse() reports
   * INVALID_OPTION with that value's message.
   */
  lemma InvalidSampleRows(f: RequestFields, env: CsvEnv, value: string)
    requires f.schemaName.Some? && !NullOrBlank(f.fileContent)
    requires ParseInt(GetParserOptionOr(f, "skipLines", "0")).Some?
    requires f.parserOptions.Some? && "sampleRows" in f.parserOptions.value && f.parserOptions.value["sampleRows"] == Some(value)
    requires ParseInt(value).None?
    ensures ParseSpec(f, env) == Err(InvalidOption(value))
    ensures InvalidOption(value).code == "INVALID_OPTION" && InvalidOption(value).fileType == Some(CSV)
    ensures InvalidOption(value).message == "Invalid numeric option value: " + "For input string: \"" + value + "\""
  {
    assert ReadOptions(f) == Err(InvalidOption(value)) by {
      assert GetParserOptionOr(f, "sampleRows", "100") == value;
    }
    MessageRegrouped("Invalid numeric option value: ", "For input string: \"", value, "\"");
  }

  /** Regrouping a four-part concatenation, the shape of the INVALID_OPTION message. */
  lemma MessageRegrouped(a: string, b: string, v: string, c: string)
    ensures a + (b + v + c) == a + b + v + c
  {
    AppendAssoc(a, b + v, c);
    AppendAssoc(a, b, v);
  }

  /** Every key parse() reads is one getAvailableOptions lists. */
  lemma OptionsReadAreAvailable()
    ensures OptionsRead <= AvailableOptions().Keys
    ensures AvailableOptions().Keys - OptionsRead == {"encoding"}
  {
  }

  // ---------------------------------------------------------------- headers and samples

  /** Generated column names are all different from each other. */
  lemma {:induction false} GeneratedNamesDistinct(n: nat)
    ensures |GeneratedNames(n)| == n && NoDup(GeneratedNames(n))
    ensures forall i :: 0 <= i < n ==> GeneratedNames(n)[i] == "column" + NatToString(i + 1)
  {
    var g := GeneratedNames(n);
    forall i, j | 0 <= i < j < n ensures g[i] != g[j] {
      if g[i] == g[j] {
        assert g[i][6..] == NatToString(i + 1);
        assert g[j][6..] == NatToString(j + 1);
        NatToStringInjective(i + 1, j + 1);
      }
    }
  }

  /** Without a header row the columns are column1 .. columnN, N the length of the first row. */
  lemma HeaderlessColumns(name: string, rows: seq<seq<string>>, o: CsvOptions, inf: Inference)
    requires |rows| > 0 && !o.hasHeader
    ensures var columns := TreeOf(name, rows, o, inf).children[0].children;
      |columns| == |rows[0]| && forall i :: 0 <= i < |columns| ==> columns[i].name == "column" + NatToString(i + 1)
  {
    var headers := Headers(rows, o.hasHeader);
    assert headers == GeneratedNames(|rows[0]|);
    var start := 0;
    var sampled := SampledRows(rows, start, SampleCount(o.sampleRows, |rows| - start));
    var columns := ColumnNodes(headers, ColumnTypes(inf, headers, sampled));
    assert TreeOf(name, rows, o, inf).children[0].children == columns;
    forall i | 0 <= i < |columns| ensures columns[i].name == "column" + NatToString(i + 1) {
      assert columns[i].name == headers[i];
    }
  }

  /**
   * Every sample of column name h is a non-blank cell of a column named h,
   * within both the header and its row.
   */
  lemma {:induction false} SamplesAreNonBlankCells(headers: seq<string>, rows: seq<seq<string>>, h: string)
    ensures forall v :: v in ColumnSamples(headers, rows, h) ==>
      !IsBlank(v) && exists i, j :: 0 <= i < |rows| && 0 <= j < |headers| && j < |rows[i]| && headers[j] == h && rows[i][j] == v
    decreases |rows|
  {
    if rows != [] {
      var last := |rows| - 1;
      var prefix := rows[..last];
      SamplesAreNonBlankCells(headers, prefix, h);
      forall v | v in RowSamples(headers, rows[last], Min(|headers|, |rows[last]|), h)
        ensures !IsBlank(v) && exists j :: 0 <= j < |headers| && j < |rows[last]| && headers[j] == h && rows[last][j] == v
      {
        RowSamplesAreCells(headers, rows[last], Min(|headers|, |rows[last]|), h, v);
      }
      forall v | v in ColumnSamples(headers, prefix, h)
        ensures exists i, j :: 0 <= i < |rows| && 0 <= j < |headers| && j < |rows[i]| && headers[j] == h && rows[i][j] == v
      {
        var i, j :| 0 <= i < |prefix| && 0 <= j < |headers| && j < |prefix[i]| && headers[j] == h && prefix[i][j] == v;
        assert rows[i] == prefix[i];
      }
    }
  }

  /** Every sample one row adds is a non-blank cell under a header of that name. */
  lemma {:induction false} RowSamplesAreCells(headers: seq<string>, row: seq<string>, n: nat, h: string, v: string)
    requires n <= |headers| && n <= |row|
    requires v in RowSamples(headers, row, n, h)
    ensures !IsBlank(v) && exists j :: 0 <= j < n && headers[j] == h && row[j] == v
  {
    if v !in RowSamples(headers, row, n - 1, h) {
      assert headers[n - 1] == h && row[n - 1] == v;
    } else {
      RowSamplesAreCells(headers, row, n - 1, h, v);
    }
  }

  /** With sampleRows at most zero nothing is sampled, so every column comes out "null". */
  lemma NoSamplesWithoutSampleRows(name: string, rows: seq<seq<string>>, o: CsvOptions, inf: Inference)
    requires |rows| > 0 && o.sampleRows <= 0
    ensures forall c :: c in TreeOf(name, rows, o, inf).children[0].children ==> c.typ == "null"
  {
  }

  /** Only the first min(sampleRows, data rows) data rows are looked at: later rows never change the tree. */
  lemma {:induction false} LaterRowsIgnored(name: string, rows: seq<seq<string>>, extra: seq<seq<string>>, o: CsvOptions, inf: Inference)
    requires |rows| > 0
    requires o.sampleRows <= |rows| - (if o.hasHeader then 1 else 0)
    ensures TreeOf(name, rows + extra, o, inf) == TreeOf(name, rows, o, inf)
  {
    var all := rows + extra;
    assert all[0] == rows[0];
    var start := if o.hasHeader then 1 else 0;
    var count := SampleCount(o.sampleRows, |rows| - start);
    assert SampleCount(o.sampleRows, |all| - start) == count;
    if count > 0 {
      assert all[start..start + count] == rows[start..start + count];
    }
  }

  // ---------------------------------------------------------------- type inference

  /** Once the accumulated type is "string" and merging keeps "string", the fold stays "string". */
  lemma {:induction false} FoldStaysString(inf: Inference, rest: seq<string>)
    requires forall t :: inf.mergeTypes("string", t) == "string"
    ensures FoldTypes(inf, "string", rest) == "string"
    decreases |rest|
  {
    if rest != [] {
      FoldStaysString(inf, rest[1..]);
    }
  }

  /**
   * The early exit at "string" changes nothing when merging "string" with
   * any type gives "string" again.
   */
  lemma {:induction false} EarlyExitHarmless(inf: Inference, acc: string, rest: seq<string>)
    requires forall t :: inf.mergeTypes("string", t) == "string"
    ensures Widen(inf, acc, rest) == FoldTypes(inf, acc, rest)
    decreases |rest|
  {
    if rest != [] {
      var merged := inf.mergeTypes(acc, inf.inferType(rest[0]));
      if merged == "string" {
        FoldStaysString(inf, rest[1..]);
      } else {
        EarlyExitHarmless(inf, merged, rest[1..]);
      }
    }
  }

  /** Whatever mergeTypes does, a column type other than "string" is the plain left fold. */
  lemma {:induction false} WidenIsFoldUnlessString(inf: Inference, acc: string, rest: seq<string>)
    ensures Widen(inf, acc, rest) != "string" ==> Widen(inf, acc, rest) == FoldTypes(inf, acc, rest)
    decreases |rest|
  {
    if rest != [] {
      WidenIsFoldUnlessString(inf, inf.mergeTypes(acc, inf.inferType(rest[0])), rest[1..]);
    }
  }

  /** No samples give "null"; one sample gives its own inferred type. */
  lemma InferredTypeOfFewSamples(inf: Inference, v: string)
    ensures InferColumnTypeSpec(inf, []) == "null"
    ensures InferColumnTypeSpec(inf, [v]) == inf.inferType(v)
  {
  }

  // ---------------------------------------------------------------- the tree

  /**
   * The parsed tree: root named after the schema, an array with exactly one
   * object child named item, whose children are the headers in order, each
   * with the type inferred from its samples.
   */
  lemma ParsedTreeShape(name: string, rows: seq<seq<string>>, o: CsvOptions, inf: Inference)
    requires |rows| > 0
    ensures var t := TreeOf(name, rows, o, inf);
      t.name == name && t.typ == "array" && t.isArray && |t.children| == 1
      && t.children[0].name == "item" && t.children[0].typ == "object"
      && |t.children[0].children| == |Headers(rows, o.hasHeader)|
      && forall i :: 0 <= i < |t.children[0].children| ==>
           t.children[0].children[i].name == Headers(rows, o.hasHeader)[i]
           && !t.children[0].children[i].isArray && t.children[0].children[i].children == []
  {
  }

  // ---------------------------------------------------------------- merging

  /** The type names a column name takes in the entries, in order. */
  function Occurrences(es: OMap<string, string>, n: string): seq<string>
    decreases |es|
  {
    if es == [] then []
    else Occurrences(es[..|es| - 1], n) + (if es[|es| - 1].0 == n then [es[|es| - 1].1] else [])
  }

  /** The left fold of mergeTypes over a non-empty list of types. */
  function FoldOccurrences(inf: Inference, ts: seq<string>): string
    requires ts != []
    decreases |ts|
  {
    if |ts| == 1 then ts[0] else inf.mergeTypes(FoldOccurrences(inf, ts[..|ts| - 1]), ts[|ts| - 1])
  }

  /** The merged columns are the distinct column names in the order they are first seen. */
  lemma MergedColumnsInFirstSeenOrder(inf: Inference, es: OMap<string, string>)
    ensures Keys(MergeInto(inf, [], es)) == Distinct(Keys(es))
    ensures Valid(MergeInto(inf, [], es))
  {
    MergeIntoIsMergeAll(inf, [], es);
    MergeAllKeys(es, inf.mergeTypes);
  }

  /** mergeStructures' merge is the generic entry-by-entry merge with mergeTypes. */
  lemma {:induction false} MergeIntoIsMergeAll(inf: Inference, acc: OMap<string, string>, es: OMap<string, string>)
    ensures MergeInto(inf, acc, es) == MergeAll(acc, es, inf.mergeTypes)
    decreases |es|
  {
    if es != [] {
      MergeIntoIsMergeAll(inf, acc, es[..|es| - 1]);
    }
  }

  /** A column name occurs among the entries exactly when it has at least one type there. */
  lemma {:induction false} OccurrencesOfKeys(es: OMap<string, string>, n: string)
    ensures n in Keys(es) <==> Occurrences(es, n) != []
    decreases |es|
  {
    if es != [] {
      var p := es[..|es| - 1];
      OccurrencesOfKeys(p, n);
      assert Keys(es) == Keys(p) + [es[|es| - 1].0];
    }
  }

  /** Each merged column's type is the left fold of mergeTypes over every type it had, in order. */
  lemma {:induction false} MergedTypeIsFold(inf: Inference, es: OMap<string, string>, n: string)
    ensures Get(MergeInto(inf, [], es), n) == if Occurrences(es, n) == [] then None else Some(FoldOccurrences(inf, Occurrences(es, n)))
    decreases |es|
  {
    if es != [] {
      var p := es[..|es| - 1];
      var e := es[|es| - 1];
      var acc := MergeInto(inf, [], p);
      MergedTypeIsFold(inf, p, n);
      assert MergeInto(inf, [], es) == MergeStep(inf, acc, e);
      if e.0 == n {
        var occ := Occurrences(p, n) + [e.1];
        assert Occurrences(es, n) == occ;
        assert occ[..|occ| - 1] == Occurrences(p, n);
      } else {
        assert Occurrences(es, n) == Occurrences(p, n);
        assert Get(MergeStep(inf, acc, e), n) == Get(acc, n);
      }
    }
  }

  /** The column entries of two lists of trees are those of the first, then those of the second. */
  lemma {:induction false} ColumnEntriesAppend(a: seq<Node>, b: seq<Node>)
    ensures ColumnEntries(a + b) == ColumnEntries(a) + ColumnEntries(b)
    decreases |b|
  {
    if b == [] {
      assert a + b == a;
    } else {
      var b' := b[..|b| - 1];
      var last := b[|b| - 1];
      DropLastOfAppend(a, b);
      ColumnEntriesAppend(a, b');
      assert (ColumnEntries(a) + ColumnEntries(b')) + ItemEntries(last) == ColumnEntries(a) + (ColumnEntries(b') + ItemEntries(last));
    }
  }

  /** A tree without children adds no column entries wherever it stands. */
  lemma {:induction false} ChildlessTreeAddsNoEntries(trees: seq<Node>, k: nat, t: Node)
    requires k <= |trees| && t.children == []
    ensures ColumnEntries(trees[..k] + [t] + trees[k..]) == ColumnEntries(trees)
  {
    var a, b := trees[..k], trees[k..];
    assert ColumnEntries([t]) == [] by {
      assert [t][..0] == [];
    }
    calc {
      ColumnEntries(a + [t] + b);
      { ColumnEntriesAppend(a + [t], b); }
      ColumnEntries(a + [t]) + ColumnEntries(b);
      { ColumnEntriesAppend(a, [t]); }
      (ColumnEntries(a) + ColumnEntries([t])) + ColumnEntries(b);
      { assert ColumnEntries(a) + ColumnEntries([t]) == ColumnEntries(a); }
      ColumnEntries(a) + ColumnEntries(b);
      { ColumnEntriesAppend(a, b); }
      ColumnEntries(a + b);
      { assert a + b == trees; }
      ColumnEntries(trees);
    }
  }

  /** A tree without children contributes nothing to a merge of two or more trees. */
  lemma ChildlessTreesSkipped(inf: Inference, trees: seq<Node>, k: nat, t: Node)
    requires |trees| >= 2 && 1 <= k <= |trees| && t.children == []
    ensures MergeSpec(inf, Some(trees[..k] + [t] + trees[k..])) == MergeSpec(inf, Some(trees))
  {
    var s := trees[..k] + [t] + trees[k..];
    ChildlessTreeAddsNoEntries(trees, k, t);
    assert s[0] == trees[0];
    assert |s| == |trees| + 1;
  }

  /** Merging entries whose names are all different just collects them. */
  lemma {:induction false} MergeDistinctEntries(inf: Inference, es: OMap<string, string>)
    requires Valid(es)
    ensures MergeInto(inf, [], es) == es
    decreases |es|
  {
    if es != [] {
      var p := es[..|es| - 1];
      var e := es[|es| - 1];
      assert Keys(p) == Keys(es)[..|es| - 1];
      assert Valid(p);
      MergeDistinctEntries(inf, p);
      assert e.0 !in Keys(p) by {
        forall i | 0 <= i < |p| ensures Keys(p)[i] != e.0 {
          assert Keys(p)[i] == Keys(es)[i] && e.0 == Keys(es)[|es| - 1];
        }
      }
      assert MergeInto(inf, [], es) == MergeStep(inf, p, e);
      assert Get(p, e.0) == None;
      assert MergeStep(inf, p, e) == p + [e];
      assert p + [e] == es;
    }
  }

  /** Merging entries the map already holds, with a mergeTypes that keeps equal types, changes nothing. */
  lemma {:induction false} MergeKnownEntries(inf: Inference, acc: OMap<string, string>, es: OMap<string, string>)
    requires Valid(acc)
    requires forall i :: 0 <= i < |es| ==> Get(acc, es[i].0) == Some(es[i].1) && inf.mergeTypes(es[i].1, es[i].1) == es[i].1
    ensures MergeInto(inf, acc, es) == acc
    decreases |es|
  {
    if es != [] {
      var p := es[..|es| - 1];
      MergeKnownEntries(inf, acc, p);
      var e := es[|es| - 1];
      PutSame(acc, e.0, e.1);
    }
  }

  /**
   * Merging a CSV tree with itself gives the same tree back, when its
   * column names are distinct and mergeTypes(t, t) = t for its types.
   */
  lemma MergeIsIdempotent(inf: Inference, name: string, names: seq<string>, types: seq<string>)
    requires |names| == |types| && NoDup(names)
    requires forall i :: 0 <= i < |types| ==> inf.mergeTypes(types[i], types[i]) == types[i]
    ensures var t := CsvTree(name, ColumnNodes(names, types));
      MergeSpec(inf, Some([t, t])) == Ok(t)
  {
    var t := CsvTree(name, ColumnNodes(names, types));
    var e := ItemEntries(t);
    assert Keys(e) == names;
    assert Values(e) == types;
    assert [t, t][..1] == [t];
    assert ColumnEntries([t]) == e by {
      assert [t][..0] == [];
    }
    assert ColumnEntries([t, t]) == e + e;
    MergeIntoAppend(inf, [], e, e);
    MergeDistinctEntries(inf, e);
    forall i | 0 <= i < |e| ensures Get(e, e[i].0) == Some(e[i].1) {
      GetAt(e, i);
    }
    MergeKnownEntries(inf, e, e);
  }
}
