/**
 What the line transformer promises about the nine fields it produces:
 defaults and precedence of the per-field options, when a record is
 rejected and why, the ordering of the bounds, the strand guess, and the
 attribute prefix.
 */
module RowProperties {
  import opened Options
  import opened Text
  import opened Integers
  import opened Transform

  /** `v` is what a "column, else literal, else '.'" option gives. */
  predicate Resolved(index: int, literal: string, row: seq<string>, v: string) {
    && (index >= 0 ==> index < |row| && v == row[index])
    && (index < 0 && literal != "" ==> v == literal)
    && (index < 0 && literal == "" ==> v == ".")
  }

  /** Every configured column lies inside the record, both bounds address
      fields of it and both read as integers. */
  predicate Processable(cfg: Config, row: seq<string>) {
    && cfg.seqid < |row| && cfg.source < |row| && cfg.featureType < |row|
    && Addressable(row, cfg.bounds.0) && Addressable(row, cfg.bounds.1)
    && ParseInt(PyIndex(row, cfg.bounds.0)).Some?
    && ParseInt(PyIndex(row, cfg.bounds.1)).Some?
    && cfg.score < |row| && cfg.strand < |row| && cfg.phase < |row| && cfg.attribute < |row|
  }

  /** A record yields a row exactly when it is processable. */
  lemma SucceedsIffProcessable(cfg: Config, row: seq<string>)
    ensures ProcessedRow(cfg, row).Ok? <==> Processable(cfg, row)
  {
    if Processable(cfg, row) {
      var text := BoundsText(cfg, row).value;
      assert SortedBounds(text.0, text.1).Ok?;
    }
  }

  /** Seqid, source, type, score and phase: a set column wins over the
      literal, a literal fills in when the column is unset, and a field with
      neither stays "."; score has no literal at all. */
  lemma FieldsResolve(cfg: Config, row: seq<string>)
    requires ProcessedRow(cfg, row).Ok?
    ensures var r := ProcessedRow(cfg, row).value;
      && Resolved(cfg.seqid, cfg.seqids, row, r[0])
      && Resolved(cfg.source, cfg.sources, row, r[1])
      && Resolved(cfg.featureType, cfg.types, row, r[2])
      && Resolved(cfg.score, "", row, r[5])
      && Resolved(cfg.phase, cfg.phases, row, r[7])
  {
    Produced(cfg, row);
    ColumnResolves(cfg.seqid, cfg.seqids, row, 0);
    ColumnResolves(cfg.source, cfg.sources, row, 1);
    ColumnResolves(cfg.featureType, cfg.types, row, 2);
    ColumnResolves(cfg.score, "", row, 5);
    ColumnResolves(cfg.phase, cfg.phases, row, 7);
  }

  lemma ColumnResolves(index: int, literal: string, row: seq<string>, slot: nat)
    ensures ColumnOrLiteral(index, literal, row, slot).Ok? ==>
      Resolved(index, literal, row, ColumnOrLiteral(index, literal, row, slot).value)
  {
  }

  /** A produced row, field by field: every step succeeded, and the row is
      the nine values the steps gave. */
  lemma Produced(cfg: Config, row: seq<string>)
    requires ProcessedRow(cfg, row).Ok?
    ensures BoundsText(cfg, row).Ok?
    ensures var text := BoundsText(cfg, row).value;
      && SortedBounds(text.0, text.1).Ok?
      && ColumnOrLiteral(cfg.seqid, cfg.seqids, row, 0).Ok?
      && ColumnOrLiteral(cfg.source, cfg.sources, row, 1).Ok?
      && ColumnOrLiteral(cfg.featureType, cfg.types, row, 2).Ok?
      && ColumnOrLiteral(cfg.score, "", row, 5).Ok?
      && StrandField(cfg, row, text.0, text.1).Ok?
      && ColumnOrLiteral(cfg.phase, cfg.phases, row, 7).Ok?
      && AttributeField(cfg, row).Ok?
      && var span := SortedBounds(text.0, text.1).value;
      ProcessedRow(cfg, row).value == [
        ColumnOrLiteral(cfg.seqid, cfg.seqids, row, 0).value,
        ColumnOrLiteral(cfg.source, cfg.sources, row, 1).value,
        ColumnOrLiteral(cfg.featureType, cfg.types, row, 2).value,
        IntToString(span.0), IntToString(span.1),
        ColumnOrLiteral(cfg.score, "", row, 5).value,
        StrandField(cfg, row, text.0, text.1).value,
        ColumnOrLiteral(cfg.phase, cfg.phases, row, 7).value,
        AttributeField(cfg, row).value]
  {
  }

  /** The first failing check, in the order the tool makes them, names the
      error: a column past the end of the record names its output slot. */
  lemma FirstColumnErrors(cfg: Config, row: seq<string>)
    ensures cfg.seqid >= |row| ==> ProcessedRow(cfg, row) == Err(IndexOutOfRange(0))
    ensures cfg.seqid < |row| && cfg.source >= |row| ==> ProcessedRow(cfg, row) == Err(IndexOutOfRange(1))
    ensures cfg.seqid < |row| && cfg.source < |row| && cfg.featureType >= |row| ==>
      ProcessedRow(cfg, row) == Err(IndexOutOfRange(2))
  {
  }

  /** Once seqid, source and type are read, a bounds index that addresses
      no field is the "must provide bounds" error, and a bound that is not
      an integer the "must be integers" error; no row is produced. */
  lemma BoundsErrors(cfg: Config, row: seq<string>)
    requires cfg.seqid < |row| && cfg.source < |row| && cfg.featureType < |row|
    ensures !Addressable(row, cfg.bounds.0) || !Addressable(row, cfg.bounds.1) ==>
      ProcessedRow(cfg, row) == Err(BoundsMissing)
    ensures (&& Addressable(row, cfg.bounds.0) && Addressable(row, cfg.bounds.1)
             && (ParseInt(PyIndex(row, cfg.bounds.0)).None? || ParseInt(PyIndex(row, cfg.bounds.1)).None?))
      ==> ProcessedRow(cfg, row) == Err(NotInteger)
  {
  }

  /** The bound columns can be addressed from the end, as Python indexing
      allows: -1 is the last field. */
  lemma NegativeBoundsIndex(cfg: Config, row: seq<string>)
    ensures BoundsText(cfg, row).Ok? && cfg.bounds.0 < 0 ==> BoundsText(cfg, row).value.0 == row[|row| + cfg.bounds.0]
    ensures BoundsText(cfg, row).Ok? && cfg.bounds.1 < 0 ==> BoundsText(cfg, row).value.1 == row[|row| + cfg.bounds.1]
  {
  }

  /** Start and end are the two bounds in ascending numeric order, written
      back as decimal text: read again, start <= end. */
  lemma BoundsAscending(cfg: Config, row: seq<string>)
    requires ProcessedRow(cfg, row).Ok?
    ensures var r := ProcessedRow(cfg, row).value;
      var a := ParseInt(PyIndex(row, cfg.bounds.0)).value;
      var b := ParseInt(PyIndex(row, cfg.bounds.1)).value;
      && ParseInt(r[3]) == Some(if a <= b then a else b)
      && ParseInt(r[4]) == Some(if a <= b then b else a)
      && ParseInt(r[3]).value <= ParseInt(r[4]).value
  {
    var span := BoundsWritten(cfg, row);
    ParseIntToString(span.0);
    ParseIntToString(span.1);
  }

  /** Slots 3 and 4 of a produced row are the sorted bounds, written out. */
  lemma BoundsWritten(cfg: Config, row: seq<string>) returns (span: (int, int))
    requires ProcessedRow(cfg, row).Ok?
    ensures BoundsText(cfg, row).Ok?
    ensures SortedBounds(BoundsText(cfg, row).value.0, BoundsText(cfg, row).value.1) == Ok(span)
    ensures ProcessedRow(cfg, row).value[3] == IntToString(span.0)
    ensures ProcessedRow(cfg, row).value[4] == IntToString(span.1)
  {
    Produced(cfg, row);
    var text := BoundsText(cfg, row).value;
    span := SortedBounds(text.0, text.1).value;
  }

  /** When the bound fields are already written the way `str` writes
      integers, start and end are exactly those two texts, smaller first. */
  lemma CanonicalBoundsKept(cfg: Config, row: seq<string>, a: int, b: int)
    requires Addressable(row, cfg.bounds.0) && Addressable(row, cfg.bounds.1)
    requires PyIndex(row, cfg.bounds.0) == IntToString(a)
    requires PyIndex(row, cfg.bounds.1) == IntToString(b)
    requires ProcessedRow(cfg, row).Ok?
    ensures var r := ProcessedRow(cfg, row).value;
      [r[3], r[4]] == if a <= b then [IntToString(a), IntToString(b)] else [IntToString(b), IntToString(a)]
  {
    var span := BoundsWritten(cfg, row);
    ParseIntToString(a);
    ParseIntToString(b);
  }

  function SwapBounds(cfg: Config): Config {
    cfg.(bounds := (cfg.bounds.1, cfg.bounds.0))
  }

  /** "+" and "-" trade places; anything else stays. */
  function Mirror(strand: string): string {
    if strand == "+" then "-" else if strand == "-" then "+" else strand
  }

  /** Exchanging the two bounds columns changes which record fails, and
      with which error, not at all. */
  lemma SwapBoundsSameErrors(cfg: Config, row: seq<string>)
    ensures ProcessedRow(SwapBounds(cfg), row).Err? <==> ProcessedRow(cfg, row).Err?
    ensures ProcessedRow(cfg, row).Err? ==> ProcessedRow(SwapBounds(cfg), row) == ProcessedRow(cfg, row)
  {
    SwapBoundsText(cfg, row);
  }

  /** With the strand guessed, exchanging the two bounds columns changes
      nothing in a produced row but the strand, which flips; start and end
      come out the same. */
  lemma SwapBoundsFlipsGuess(cfg: Config, row: seq<string>)
    requires ProcessedRow(cfg, row).Ok? && cfg.strand < 0 && cfg.guessStrand
    ensures var r := ProcessedRow(cfg, row).value;
      && ProcessedRow(SwapBounds(cfg), row).Ok?
      && ProcessedRow(SwapBounds(cfg), row).value == r[6 := Mirror(r[6])]
  {
    var cfg' := SwapBounds(cfg);
    SwapBoundsText(cfg, row);
    Produced(cfg, row);
    var text := BoundsText(cfg, row).value;
    var span := SortedBounds(text.0, text.1).value;
    var a0 := ColumnOrLiteral(cfg.seqid, cfg.seqids, row, 0).value;
    var a1 := ColumnOrLiteral(cfg.source, cfg.sources, row, 1).value;
    var a2 := ColumnOrLiteral(cfg.featureType, cfg.types, row, 2).value;
    var a5 := ColumnOrLiteral(cfg.score, "", row, 5).value;
    var a7 := ColumnOrLiteral(cfg.phase, cfg.phases, row, 7).value;
    var a8 := AttributeField(cfg, row).value;
    var g, g' := GuessStrand(text.0, text.1), GuessStrand(text.1, text.0);
    assert StrandField(cfg', row, text.1, text.0) == Ok(g');
    assert AttributeField(cfg', row) == AttributeField(cfg, row);
    assert ProcessedRow(cfg', row)
      == Ok([a0, a1, a2, IntToString(span.0), IntToString(span.1), a5, g', a7, a8]);
    GuessStrandMeaning(text.0, text.1);
    GuessStrandMeaning(text.1, text.0);
    assert g' == Mirror(g);
  }

  /** Without the guess, exchanging the two bounds columns changes nothing. */
  lemma SwapBoundsKeepsRow(cfg: Config, row: seq<string>)
    requires cfg.strand >= 0 || !cfg.guessStrand
    ensures ProcessedRow(SwapBounds(cfg), row) == ProcessedRow(cfg, row)
  {
    SwapBoundsText(cfg, row);
  }

  /** With the bounds columns exchanged the raw texts trade places and the
      sorted bounds stay the same. */
  lemma SwapBoundsText(cfg: Config, row: seq<string>)
    ensures BoundsText(SwapBounds(cfg), row).Ok? <==> BoundsText(cfg, row).Ok?
    ensures BoundsText(cfg, row).Ok? ==>
      var text := BoundsText(cfg, row).value;
      && BoundsText(SwapBounds(cfg), row).value == (text.1, text.0)
      && SortedBounds(text.1, text.0) == SortedBounds(text.0, text.1)
  {
  }

  /** The guess: "+" exactly when the raw end text sorts after the raw
      start text, "-" exactly when it sorts before, "." exactly when the two
      texts are equal. */
  lemma GuessStrandMeaning(start: string, end: string)
    ensures GuessStrand(start, end) == "+" <==> StrLess(start, end)
    ensures GuessStrand(start, end) == "-" <==> StrLess(end, start)
    ensures GuessStrand(start, end) == "." <==> start == end
  {
    StrLessTrichotomy(start, end);
    StrLessIrreflexive(start);
  }

  /** The guess compares text, not numbers: with start 9 and end 10 the
      feature is guessed to lie on the minus strand. */
  lemma GuessStrandIsTextual()
    ensures GuessStrand("9", "10") == "-" && ParseInt("9") == Some(9) && ParseInt("10") == Some(10)
  {
    assert "9"[..0] == "" && "10"[..1] == "1" && "1"[..0] == "";
    assert StrLess("10", "9");
  }

  /** Strand precedence: a set strand column wins outright; otherwise the
      guess, when asked for, decides and the strand literal is ignored, even
      when the guess is "."; otherwise the literal; otherwise ".". */
  lemma StrandPrecedence(cfg: Config, row: seq<string>)
    requires ProcessedRow(cfg, row).Ok?
    ensures var r := ProcessedRow(cfg, row).value;
      var text := BoundsText(cfg, row).value;
      && (cfg.strand >= 0 ==> r[6] == row[cfg.strand])
      && (cfg.strand < 0 && cfg.guessStrand ==> r[6] == GuessStrand(text.0, text.1))
      && (cfg.strand < 0 && !cfg.guessStrand ==> r[6] == if cfg.strands != "" then cfg.strands else ".")
  {
    Produced(cfg, row);
  }

  /** The value the attribute option selects, before any prefix. */
  function AttributeSource(cfg: Config, row: seq<string>): string
    requires cfg.attribute < |row|
  {
    if cfg.attribute >= 0 then row[cfg.attribute]
    else if cfg.attributes != "" then cfg.attributes
    else "."
  }

  /** The attribute is `name=value` exactly when a name is given and the
      attribute column index is non-zero or the attribute literal is
      non-empty; otherwise it is the bare value. The column is read from
      the record at the attribute index. */
  lemma AttributePrefix(cfg: Config, row: seq<string>)
    requires ProcessedRow(cfg, row).Ok?
    ensures cfg.attribute < |row|
    ensures var r := ProcessedRow(cfg, row).value;
      var v := AttributeSource(cfg, row);
      && (r[8] == cfg.attrName + "=" + v <==> cfg.attrName != "" && (cfg.attribute != 0 || cfg.attributes != ""))
      && (!PrefixApplies(cfg) ==> r[8] == v)
  {
    Produced(cfg, row);
    var r := ProcessedRow(cfg, row).value;
    var v := AttributeSource(cfg, row);
    assert AttributeValue(cfg, row) == Ok(v);
    if !PrefixApplies(cfg) {
      assert r[8] == v;
      assert |cfg.attrName + "=" + v| > |v|;
    }
  }

  /** Consequences of the truth test on the column index: with a name but
      no attribute option at all the unset index -1 still yields `name=.`,
      while reading the first column (index 0) without a literal yields
      the bare value. */
  lemma PrefixOnDefaults(cfg: Config, row: seq<string>)
    requires ProcessedRow(cfg, row).Ok? && cfg.attrName != "" && cfg.attributes == ""
    ensures cfg.attribute == -1 ==> ProcessedRow(cfg, row).value[8] == cfg.attrName + "=."
    ensures cfg.attribute == 0 ==> ProcessedRow(cfg, row).value[8] == row[0]
  {
    Produced(cfg, row);
  }

  /** The code as written reads the attribute column with the attribute
      literal as index, which fails for every record once the column is set,
      where the intended read gives the column's field. */
  lemma AttributeReadAsWrittenFails(cfg: Config, row: seq<string>)
    requires 0 <= cfg.attribute < |row|
    ensures AttributeValueAsWritten(cfg, row) == Err(AttributeIndexNotInteger)
    ensures AttributeValue(cfg, row) == Ok(row[cfg.attribute])
  {
  }

  /** The two reads agree whenever the attribute column is unset. */
  lemma AttributeReadsAgreeWhenUnset(cfg: Config, row: seq<string>)
    requires cfg.attribute < 0
    ensures AttributeValueAsWritten(cfg, row) == AttributeValue(cfg, row)
  {
  }

  /** The bounds of `ExampleRecord` read and write back as themselves. */
  lemma ThreeDigits()
    ensures IntToString(100) == "100" && ParseInt("100") == Some(100)
    ensures IntToString(200) == "200" && ParseInt("200") == Some(200)
  {
    assert NatToDigits(1) == "1" && NatToDigits(2) == "2";
    assert NatToDigits(10) == "10" && NatToDigits(20) == "20";
    ParseIntToString(100);
    ParseIntToString(200);
  }

  /** An example record: seqid, source and type from columns 0, 1 and 2,
      bounds from columns 2 and 3. */
  lemma ExampleRecord()
    ensures var cfg := DefaultConfig(2, 3).(seqid := 0, source := 1, featureType := 2);
      ProcessedRow(cfg, ["chr1", "AUGUSTUS", "100", "200", ".", "+", ".", "gene1"])
        == Ok(["chr1", "AUGUSTUS", "100", "100", "200", ".", ".", ".", "."])
  {
    var cfg := DefaultConfig(2, 3).(seqid := 0, source := 1, featureType := 2);
    var row := ["chr1", "AUGUSTUS", "100", "200", ".", "+", ".", "gene1"];
    ThreeDigits();
    assert ColumnOrLiteral(0, "", row, 0) == Ok("chr1");
    assert ColumnOrLiteral(1, "", row, 1) == Ok("AUGUSTUS");
    assert ColumnOrLiteral(2, "", row, 2) == Ok("100");
    assert BoundsText(cfg, row) == Ok(("100", "200"));
    assert SortedBounds("100", "200") == Ok((100, 200));
    assert ColumnOrLiteral(-1, "", row, 5) == Ok(".");
    assert StrandField(cfg, row, "100", "200") == Ok(".");
    assert ColumnOrLiteral(-1, "", row, 7) == Ok(".");
    assert AttributeField(cfg, row) == Ok(".");
  }
}
