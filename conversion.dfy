/**
 The run over a whole input: every line is stripped, comment lines are
 passed over, every other line is split on the delimiter and transformed,
 and each row is written out with its fields joined by tabs. The first
 failing line stops the run; the rows of the lines before it have already
 been written.
 */
module Conversion {
  import opened Options
  import opened Text
  import opened Transform

  /** What a run produced: the rows written, in input order, and the error
      that stopped it, if one did. */
  datatype Run = Run(rows: seq<seq<string>>, failure: Option<Error>)

  /** What one input line contributes. */
  datatype LineOutcome = Skip | Emit(row: seq<string>) | Fail(error: Error)

  /** A line that is a comment once stripped. */
  predicate IsComment(line: string) {
    var t := Strip(line);
    |t| > 0 && t[0] == '#'
  }

  /** The fate of one line: a line that is empty once stripped stops the
      run (its first character does not exist), a comment is skipped, and
      any other line is split on the delimiter and transformed. */
  function Classify(cfg: Config, line: string): (r: LineOutcome)
    ensures r.Skip? <==> IsComment(line)
    ensures r.Emit? ==> |r.row| == 9
  {
    var t := Strip(line);
    if |t| == 0 then Fail(EmptyLine)
    else if t[0] == '#' then Skip
    else if |cfg.delimiter| == 0 then Fail(EmptyDelimiter)
    else match ProcessedRow(cfg, Split(t, cfg.delimiter))
      case Ok(row) => Emit(row)
      case Err(e) => Fail(e)
  }

  /** Rows already written, followed by the run over the rest of the input. */
  function After(rows: seq<seq<string>>, rest: Run): Run {
    Run(rows + rest.rows, rest.failure)
  }

  /** The run over `lines`, line by line in input order. */
  function Converted(cfg: Config, lines: seq<string>): (r: Run)
    ensures |r.rows| <= |lines|
    decreases |lines|
  {
    if lines == [] then Run([], None)
    else match Classify(cfg, lines[0])
      case Skip => Converted(cfg, lines[1..])
      case Emit(row) => After([row], Converted(cfg, lines[1..]))
      case Fail(e) => Run([], Some(e))
  }

  /** The body of the loop in `get_gff3` for one line: strip it, pass over
      a comment, split the rest on the delimiter and transform it. */
  method NextLine(cfg: Config, raw: string) returns (outcome: LineOutcome)
    ensures outcome == Classify(cfg, raw)
  {
    var line := Strip(raw);
    if |line| == 0 {
      return Fail(EmptyLine);
    }
    if line[0] == '#' {
      return Skip;
    }
    if |cfg.delimiter| == 0 {
      return Fail(EmptyDelimiter);
    }
    var inrow := Split(line, cfg.delimiter);
    var outrow := ProcessLine(cfg, inrow);
    if outrow.Err? {
      return Fail(outrow.error);
    }
    outcome := Emit(outrow.value);
  }

  /** `get_gff3`: the loop over the input lines. */
  method GetGff3(cfg: Config, lines: seq<string>) returns (run: Run)
    ensures run == Converted(cfg, lines)
  {
    var rows: seq<seq<string>> := [];
    for i := 0 to |lines|
      invariant Converted(cfg, lines) == After(rows, Converted(cfg, lines[i..]))
    {
      ghost var rest := Converted(cfg, lines[i + 1..]);
      ConvertedUnfold(cfg, lines, i);
      var outcome := NextLine(cfg, lines[i]);
      match outcome
      case Skip =>
      case Fail(e) =>
        return Run(rows, Some(e));
      case Emit(row) =>
        AppendAssoc(rows, [row], rest.rows);
        rows := rows + [row];
    }
    assert lines[|lines|..] == [];
    assert rows + [] == rows;
    run := Run(rows, None);
  }

  lemma AppendAssoc<T>(a: seq<T>, b: seq<T>, c: seq<T>)
    ensures a + (b + c) == (a + b) + c
  {
  }

  lemma ConvertedUnfold(cfg: Config, lines: seq<string>, i: nat)
    requires i < |lines|
    ensures Converted(cfg, lines[i..]) ==
      match Classify(cfg, lines[i])
      case Skip => Converted(cfg, lines[i + 1..])
      case Emit(row) => After([row], Converted(cfg, lines[i + 1..]))
      case Fail(e) => Run([], Some(e))
  {
    assert lines[i..][0] == lines[i] && lines[i..][1..] == lines[i + 1..];
  }

  /** One output line: the fields joined with tabs. */
  function Render(row: seq<string>): (line: string)
    ensures |row| > 0 ==> row[0] <= line
  {
    Join(row, "\t")
  }

  /** The loop that writes every row of a run as one line. */
  method WriteRows(rows: seq<seq<string>>) returns (out: seq<string>)
    ensures |out| == |rows|
    ensures forall k :: 0 <= k < |rows| ==> out[k] == Render(rows[k])
  {
    out := [];
    for i := 0 to |rows|
      invariant |out| == i
      invariant forall k :: 0 <= k < i ==> out[k] == Render(rows[k])
    {
      out := out + [Render(rows[i])];
    }
  }

  /** The exit status of a run. The two diagnosed errors end the run with a
      bare `SystemExit`, whose status is 0 like a normal end; the errors no
      handler catches end it with status 1. */
  function ExitStatus(run: Run): (status: int)
    ensures status == 0 || status == 1
    ensures run.failure.None? ==> status == 0
    ensures status == 1 <==> run.failure.Some? && run.failure.value != BoundsMissing && run.failure.value != NotInteger
  {
    match run.failure
    case None => 0
    case Some(BoundsMissing) => 0
    case Some(NotInteger) => 0
    case Some(_) => 1
  }

  /** The data lines of an input: those that are not comments. */
  function DataLines(lines: seq<string>): seq<string>
    decreases |lines|
  {
    if lines == [] then []
    else if IsComment(lines[0]) then DataLines(lines[1..])
    else [lines[0]] + DataLines(lines[1..])
  }

  /** The fields a data line is split into. */
  function Fields(cfg: Config, line: string): seq<string>
    requires |cfg.delimiter| > 0
  {
    Split(Strip(line), cfg.delimiter)
  }

  /** An input of comment lines only produces no rows and no error. */
  lemma {:induction false} CommentsOnly(cfg: Config, lines: seq<string>)
    requires forall i :: 0 <= i < |lines| ==> IsComment(lines[i])
    ensures Converted(cfg, lines) == Run([], None)
    decreases |lines|
  {
    if lines != [] {
      assert IsComment(lines[0]);
      CommentsOnly(cfg, lines[1..]);
    }
  }

  /** A run that ends normally writes exactly one row per data line, in
      input order: the row each data line yields. */
  lemma {:induction false} RowsMatchDataLines(cfg: Config, lines: seq<string>)
    requires Converted(cfg, lines).failure.None?
    ensures |Converted(cfg, lines).rows| == |DataLines(lines)|
    ensures forall k :: 0 <= k < |DataLines(lines)| ==>
      Classify(cfg, DataLines(lines)[k]) == Emit(Converted(cfg, lines).rows[k])
    decreases |lines|
  {
    if lines != [] {
      RowsMatchDataLines(cfg, lines[1..]);
      var rest := Converted(cfg, lines[1..]).rows;
      var restData := DataLines(lines[1..]);
      if !IsComment(lines[0]) {
        var outcome := Classify(cfg, lines[0]);
        assert outcome.Emit?;
        var rows := Converted(cfg, lines).rows;
        var data := DataLines(lines);
        assert Converted(cfg, lines) == After([outcome.row], Converted(cfg, lines[1..]));
        assert rows == [outcome.row] + rest;
        assert data == [lines[0]] + restData;
        forall k | 0 <= k < |data|
          ensures Classify(cfg, data[k]) == Emit(rows[k])
        {
          if k > 0 {
            assert data[k] == restData[k - 1] && rows[k] == rest[k - 1];
          }
        }
      } else {
        assert Classify(cfg, lines[0]).Skip?;
      }
    }
  }

  /** A line yields a row exactly when it is neither blank nor a comment,
      the delimiter is not empty, and the transform accepts its fields. */
  lemma EmitMeans(cfg: Config, line: string, row: seq<string>)
    ensures Classify(cfg, line) == Emit(row) <==>
      && |Strip(line)| > 0 && !IsComment(line) && |cfg.delimiter| > 0
      && ProcessedRow(cfg, Fields(cfg, line)) == Ok(row)
  {
  }

  /** Failing fast: a run that stopped on some line is not affected by the
      lines after it; one that did not stop continues with the next input. */
  lemma {:induction false} ConvertedAppend(cfg: Config, a: seq<string>, b: seq<string>)
    ensures Converted(cfg, a).failure.Some? ==> Converted(cfg, a + b) == Converted(cfg, a)
    ensures Converted(cfg, a).failure.None? ==>
      Converted(cfg, a + b) == After(Converted(cfg, a).rows, Converted(cfg, b))
    decreases |a|
  {
    if a == [] {
      assert a + b == b;
      assert Converted(cfg, b) == After([], Converted(cfg, b));
    } else {
      assert (a + b)[0] == a[0] && (a + b)[1..] == a[1..] + b;
      ConvertedAppend(cfg, a[1..], b);
      match Classify(cfg, a[0])
      case Skip =>
      case Emit(row) =>
        var r := Converted(cfg, a[1..]).rows;
        AppendAssoc([row], r, Converted(cfg, b).rows);
      case Fail(e) =>
    }
  }

  /** Every row written has the nine GFF3 fields. */
  lemma {:induction false} RowsHaveNineFields(cfg: Config, lines: seq<string>)
    ensures forall k :: 0 <= k < |Converted(cfg, lines).rows| ==> |Converted(cfg, lines).rows[k]| == 9
    decreases |lines|
  {
    if lines != [] {
      var rest := Converted(cfg, lines[1..]).rows;
      RowsHaveNineFields(cfg, lines[1..]);
      match Classify(cfg, lines[0])
      case Skip =>
      case Emit(row) =>
        var rows := Converted(cfg, lines).rows;
        assert rows == [row] + rest;
        forall k | 0 <= k < |rows| ensures |rows[k]| == 9 {
          if k > 0 { assert rows[k] == rest[k - 1]; }
        }
      case Fail(e) =>
    }
  }

  /** The fields of a data line, joined again with the delimiter, give back
      the stripped line. */
  lemma FieldsRejoin(cfg: Config, line: string)
    requires |cfg.delimiter| > 0
    ensures Join(Fields(cfg, line), cfg.delimiter) == Strip(line)
  {
    JoinSplit(Strip(line), cfg.delimiter);
  }

  /** A written row, split at its tabs, gives back its fields, as long as no
      field holds a tab. */
  lemma RenderSplitsBack(row: seq<string>)
    requires |row| >= 1
    requires forall i :: 0 <= i < |row| ==> '\t' !in row[i]
    ensures Split(Render(row), "\t") == row
  {
    SplitJoin(row, '\t');
  }

  /** A run stopped by either diagnosed error exits with status 0, as a
      normal end does. */
  lemma DiagnosedErrorsExitZero(cfg: Config, lines: seq<string>)
    requires Converted(cfg, lines).failure == Some(BoundsMissing)
          || Converted(cfg, lines).failure == Some(NotInteger)
    ensures ExitStatus(Converted(cfg, lines)) == ExitStatus(Run(Converted(cfg, lines).rows, None))
  {
  }

  /** A run stopped by an error that no handler catches (a column past the
      record, a blank line, an empty delimiter, the attribute read as
      written) exits with status 1. */
  lemma UncaughtErrorsExitOne(cfg: Config, lines: seq<string>)
    requires Converted(cfg, lines).failure.Some?
    requires Converted(cfg, lines).failure.value.IndexOutOfRange?
          || Converted(cfg, lines).failure == Some(EmptyLine)
          || Converted(cfg, lines).failure == Some(EmptyDelimiter)
          || Converted(cfg, lines).failure == Some(AttributeIndexNotInteger)
    ensures ExitStatus(Converted(cfg, lines)) == 1
  {
  }
}
