/**
 The line transformer: one split input record becomes the nine GFF3 fields
 seqid, source, type, start, end, score, strand, phase and attributes
 (slots 0 to 8), or the run stops with an `Error`.

 `ProcessedRow` says field by field what the result is; `ProcessLine` is the
 procedure as the tool runs it, starting from nine "." and overwriting slots
 in order, and is proved to compute `ProcessedRow`.
 */
module Transform {
  import opened Options
  import opened Text
  import opened Integers

  /** Whether `i` addresses a field of `row` under Python indexing, where
      -1 is the last field and -|row| the first. */
  predicate Addressable(row: seq<string>, i: int) {
    -|row| <= i < |row|
  }

  /** `row[i]` under Python indexing. */
  function PyIndex(row: seq<string>, i: int): (v: string)
    requires Addressable(row, i)
    ensures v == row[i % |row|]
  {
    if i >= 0 then row[i]
    else
      assert i % |row| == |row| + i by { ModAddOnce(i, |row|); }
      row[|row| + i]
  }

  /** For -n <= i < 0, i mod n is i + n. */
  lemma ModAddOnce(i: int, n: int)
    requires 0 < n && -n <= i < 0
    ensures i % n == n + i
  {
    assert i == -1 * n + (n + i);
  }

  /** A field that takes a column when its index is set (>= 0), else its
      literal when that is non-empty, else ".". The column is read without
      the bounds check the tool does not make, so a column past the end of
      the record stops the run. */
  function ColumnOrLiteral(index: int, literal: string, row: seq<string>, slot: nat): Result<string> {
    if index >= 0 then
      if index < |row| then Ok(row[index]) else Err(IndexOutOfRange(slot))
    else if literal != "" then Ok(literal)
    else Ok(".")
  }

  /** The raw start and end text, read from the two bounds columns. */
  function BoundsText(cfg: Config, row: seq<string>): (r: Result<(string, string)>)
    ensures r.Err? <==> !Addressable(row, cfg.bounds.0) || !Addressable(row, cfg.bounds.1)
    ensures r.Err? ==> r.error == BoundsMissing
    ensures r.Ok? ==> r.value == (row[cfg.bounds.0 % |row|], row[cfg.bounds.1 % |row|])
  {
    if Addressable(row, cfg.bounds.0) && Addressable(row, cfg.bounds.1) then
      Ok((PyIndex(row, cfg.bounds.0), PyIndex(row, cfg.bounds.1)))
    else Err(BoundsMissing)
  }

  /** Both bounds read as integers and put in ascending order. */
  function SortedBounds(start: string, end: string): (r: Result<(int, int)>)
    ensures r.Err? <==> ParseInt(start).None? || ParseInt(end).None?
    ensures r.Err? ==> r.error == NotInteger
    ensures r.Ok? ==> r.value.0 <= r.value.1
    ensures r.Ok? ==> (r.value == (ParseInt(start).value, ParseInt(end).value)
                       || r.value == (ParseInt(end).value, ParseInt(start).value))
  {
    match (ParseInt(start), ParseInt(end))
    case (Some(a), Some(b)) => Ok(if a <= b then (a, b) else (b, a))
    case _ => Err(NotInteger)
  }

  /** The strand `--guess-strand` gives: the RAW bound strings are compared
      as strings, so "10" comes before "9". */
  function GuessStrand(start: string, end: string): (s: string)
    ensures s == "+" || s == "-" || s == "."
    ensures s == "." <==> start == end
  {
    StrLessTrichotomy(start, end);
    StrLessIrreflexive(start);
    if StrLess(start, end) then "+"
    else if StrLess(end, start) then "-"
    else "."
  }

  /** Strand: its column first, then the guess, then its literal, else ".". */
  function StrandField(cfg: Config, row: seq<string>, start: string, end: string): (r: Result<string>)
    ensures r.Err? <==> cfg.strand >= |row|
    ensures r.Err? ==> r.error == IndexOutOfRange(6)
    ensures r.Ok? && cfg.strand < 0 ==> r.value != ""
  {
    if cfg.strand >= 0 then ColumnOrLiteral(cfg.strand, "", row, 6)
    else if cfg.guessStrand then Ok(GuessStrand(start, end))
    else ColumnOrLiteral(-1, cfg.strands, row, 6)
  }

  /** The attribute before any name prefix: its column (the intended read,
      see `AttributeValueAsWritten`), else its literal, else ".". */
  function AttributeValue(cfg: Config, row: seq<string>): (r: Result<string>)
    ensures r.Err? <==> cfg.attribute >= |row|
    ensures r.Err? ==> r.error == IndexOutOfRange(8)
  {
    ColumnOrLiteral(cfg.attribute, cfg.attributes, row, 8)
  }

  /** The attribute as the code reads it: a set attribute column makes it
      index the record with the attribute LITERAL, which is a string or
      nothing and never an index, so the read always fails. */
  function AttributeValueAsWritten(cfg: Config, row: seq<string>): (r: Result<string>)
    ensures r.Err? <==> cfg.attribute >= 0
    ensures r.Ok? ==> r.value == cfg.attributes || r.value == "."
  {
    if cfg.attribute >= 0 then Err(AttributeIndexNotInteger)
    else ColumnOrLiteral(-1, cfg.attributes, row, 8)
  }

  /** Whether the attribute gets the `name=` prefix. The test is on the
      truth of the column index, so the unset index -1 counts as set and
      the first column 0 as unset. */
  predicate PrefixApplies(cfg: Config) {
    cfg.attrName != "" && (cfg.attribute != 0 || cfg.attributes != "")
  }

  /** The attribute field: the value, behind `name=` when the prefix
      applies. */
  function AttributeField(cfg: Config, row: seq<string>): (r: Result<string>)
    ensures r.Err? <==> AttributeValue(cfg, row).Err?
    ensures r.Ok? ==> var v := AttributeValue(cfg, row).value;
      |v| <= |r.value| && r.value[|r.value| - |v|..] == v
  {
    var v := AttributeValue(cfg, row);
    if v.Err? then v
    else Ok(if PrefixApplies(cfg) then cfg.attrName + "=" + v.value else v.value)
  }

  /** The nine output fields of a record, or why there are none. The
      checks happen in the order the tool makes them, so the first failing
      field decides the error. */
  function ProcessedRow(cfg: Config, row: seq<string>): (r: Result<seq<string>>)
    ensures r.Ok? ==> |r.value| == 9
  {
    var seqid := ColumnOrLiteral(cfg.seqid, cfg.seqids, row, 0);
    if seqid.Err? then Err(seqid.error) else
    var source := ColumnOrLiteral(cfg.source, cfg.sources, row, 1);
    if source.Err? then Err(source.error) else
    var featureType := ColumnOrLiteral(cfg.featureType, cfg.types, row, 2);
    if featureType.Err? then Err(featureType.error) else
    var text := BoundsText(cfg, row);
    if text.Err? then Err(text.error) else
    var span := SortedBounds(text.value.0, text.value.1);
    if span.Err? then Err(span.error) else
    var score := ColumnOrLiteral(cfg.score, "", row, 5);
    if score.Err? then Err(score.error) else
    var strand := StrandField(cfg, row, text.value.0, text.value.1);
    if strand.Err? then Err(strand.error) else
    var phase := ColumnOrLiteral(cfg.phase, cfg.phases, row, 7);
    if phase.Err? then Err(phase.error) else
    var attribute := AttributeField(cfg, row);
    if attribute.Err? then Err(attribute.error) else
    Ok([seqid.value, source.value, featureType.value, IntToString(span.value.0), IntToString(span.value.1),
        score.value, strand.value, phase.value, attribute.value])
  }

  lemma NineFields(row: seq<string>)
    requires |row| == 9
    ensures row == [row[0], row[1], row[2], row[3], row[4], row[5], row[6], row[7], row[8]]
  {
  }

  /** One "column, else literal" step of `_process_line`: slot `slot`,
      still ".", takes the column when `index` is set and the literal when
      that is non-empty. Only that slot may change. */
  method SetField(outrow: array<string>, slot: nat, index: int, literal: string, inrow: seq<string>)
    returns (r: Result<string>)
    requires slot < outrow.Length && outrow[slot] == "."
    modifies outrow
    ensures r == ColumnOrLiteral(index, literal, inrow, slot)
    ensures r.Ok? ==> outrow[slot] == r.value
    ensures forall j :: 0 <= j < outrow.Length && j != slot ==> outrow[j] == old(outrow[j])
  {
    if index >= 0 {
      if index >= |inrow| { return Err(IndexOutOfRange(slot)); }
      outrow[slot] := inrow[index];
    } else if literal != "" {
      outrow[slot] := literal;
    }
    r := Ok(outrow[slot]);
  }

  /** The bounds step of `_process_line`: read the two bounds columns,
      read both as integers and write them, smaller first, into slots 3 and
      4. Returns the raw text read, which the strand guess compares. */
  method SetBounds(outrow: array<string>, cfg: Config, inrow: seq<string>)
    returns (r: Result<(string, string)>)
    requires outrow.Length == 9
    modifies outrow
    ensures BoundsText(cfg, inrow).Err? ==> r == Err(BoundsMissing)
    ensures BoundsText(cfg, inrow).Ok? ==>
      var text := BoundsText(cfg, inrow).value;
      var span := SortedBounds(text.0, text.1);
      if span.Err? then r == Err(NotInteger)
      else r == Ok(text) && outrow[3] == IntToString(span.value.0) && outrow[4] == IntToString(span.value.1)
    ensures forall j :: 0 <= j < 9 && j != 3 && j != 4 ==> outrow[j] == old(outrow[j])
  {
    if !Addressable(inrow, cfg.bounds.0) || !Addressable(inrow, cfg.bounds.1) {
      return Err(BoundsMissing);
    }
    var start, end := PyIndex(inrow, cfg.bounds.0), PyIndex(inrow, cfg.bounds.1);
    var a, b := ParseInt(start), ParseInt(end);
    if a.None? || b.None? {
      return Err(NotInteger);
    }
    var lo, hi := a.value, b.value;
    if hi < lo {
      lo, hi := hi, lo;
    }
    outrow[3], outrow[4] := IntToString(lo), IntToString(hi);
    r := Ok((start, end));
  }

  /** The strand step of `_process_line`: slot 6, still ".", takes the
      strand column, else the guess from the raw bounds text, else the
      strand literal. */
  method SetStrand(outrow: array<string>, cfg: Config, inrow: seq<string>, start: string, end: string)
    returns (r: Result<string>)
    requires outrow.Length == 9 && outrow[6] == "."
    modifies outrow
    ensures r == StrandField(cfg, inrow, start, end)
    ensures r.Ok? ==> outrow[6] == r.value
    ensures forall j :: 0 <= j < 9 && j != 6 ==> outrow[j] == old(outrow[j])
  {
    if cfg.strand >= 0 {
      if cfg.strand >= |inrow| { return Err(IndexOutOfRange(6)); }
      outrow[6] := inrow[cfg.strand];
    } else if cfg.guessStrand {
      if StrLess(start, end) {
        outrow[6] := "+";
      } else if StrLess(end, start) {
        outrow[6] := "-";
      }
    } else if cfg.strands != "" {
      outrow[6] := cfg.strands;
    }
    r := Ok(outrow[6]);
  }

  /** The attribute step of `_process_line`: slot 8, still ".", takes the
      attribute column or literal, then perhaps the `name=` prefix. */
  method SetAttribute(outrow: array<string>, cfg: Config, inrow: seq<string>)
    returns (r: Result<string>)
    requires outrow.Length == 9 && outrow[8] == "."
    modifies outrow
    ensures r == AttributeField(cfg, inrow)
    ensures r.Ok? ==> outrow[8] == r.value
    ensures forall j :: 0 <= j < 8 ==> outrow[j] == old(outrow[j])
  {
    var v := SetField(outrow, 8, cfg.attribute, cfg.attributes, inrow);
    if v.Err? { return Err(v.error); }
    if cfg.attrName != "" && (cfg.attribute != 0 || cfg.attributes != "") {
      outrow[8] := cfg.attrName + "=" + outrow[8];
    }
    r := Ok(outrow[8]);
  }

  /** `_process_line`. */
  method ProcessLine(cfg: Config, inrow: seq<string>) returns (res: Result<seq<string>>)
    ensures res == ProcessedRow(cfg, inrow)
  {
    var outrow := new string[9](_ => ".");

    var seqid := SetField(outrow, 0, cfg.seqid, cfg.seqids, inrow);
    if seqid.Err? { return Err(seqid.error); }
    var source := SetField(outrow, 1, cfg.source, cfg.sources, inrow);
    if source.Err? { return Err(source.error); }
    var featureType := SetField(outrow, 2, cfg.featureType, cfg.types, inrow);
    if featureType.Err? { return Err(featureType.error); }
    var text := SetBounds(outrow, cfg, inrow);
    if text.Err? { return Err(text.error); }
    // score has a column and no literal
    var score := SetField(outrow, 5, cfg.score, "", inrow);
    if score.Err? { return Err(score.error); }
    var strand := SetStrand(outrow, cfg, inrow, text.value.0, text.value.1);
    if strand.Err? { return Err(strand.error); }
    var phase := SetField(outrow, 7, cfg.phase, cfg.phases, inrow);
    if phase.Err? { return Err(phase.error); }
    var attribute := SetAttribute(outrow, cfg, inrow);
    if attribute.Err? { return Err(attribute.error); }

    res := Ok(outrow[..]);
    NineFields(outrow[..]);
  }
}
