# csv2gff3 in Dafny

`csv2gff3` turns delimited records (CSV, TSV) into GFF3 feature lines. Each
of the nine GFF3 fields (seqid, source, type, start, end, score, strand,
phase, attributes) is taken from a column of the record, from a literal
given on the command line, or is left as `.`. The two bounds columns are
read as integers and written out sorted. The strand can be guessed from the
raw bounds text. The attribute can get a `name=` prefix.

The model covers the line transformer `_process_line`, the loop `get_gff3`
and the tab join that each output line is written with. The modules are:

- `Options`: `Option` and `Result`, the `Error` tags for the ways a run can
  stop, and `Config`, which holds the parsed command-line options. A literal
  that was not given is `""`, because the tool treats a missing literal and
  an empty one alike.
- `Text`: `str.strip()`, `str.split`, `str.join` and the `<` order on
  strings.
- `Integers`: `int(s)` on a bound (`ParseInt`) and `str(n)` (`IntToString`).
- `Transform`: `ProcessedRow` states field by field what a record becomes.
  `ProcessLine` is the procedure itself: it fills an array of nine `.` slot
  by slot and is proved to compute `ProcessedRow`.
- `RowProperties`: what the transformer promises. This covers precedence
  and defaults, error cases and their order, sorted bounds, swapping the
  bounds, the textual strand guess and the attribute prefix.
- `Conversion`: still in `get_gff3`'s own order, a run strips each line,
  skips comments, splits on the delimiter and transforms. `GetGff3` is that
  loop, proved against the function `Converted`. A run is the rows written
  so far plus the error that stopped it, if any.

Three behaviours of the code that a reader may not expect:

- The `name=` prefix test checks the truth of the attribute column index.
  So with a name and no attribute option at all, the unset index -1 still
  gives `name=.`, as the code has it. Under the intended attribute read
  (see below), index 0 with no literal gives the bare first column
  (`RowProperties.PrefixOnDefaults`); the tool itself stops at
  csv2gff3.py:183 for any set attribute column, 0 included.
- The strand guess compares the raw bound texts as strings, not as
  numbers: start `9` and end `10` guess `-` (`RowProperties.GuessStrandIsTextual`).
- The two diagnosed errors, "must provide bounds" and "must be integers",
  end the run with a bare `SystemExit`, whose exit status is 0, the same as
  a normal end (`Conversion.DiagnosedErrorsExitZero`). Every other error is
  caught by nothing and exits 1 (`Conversion.UncaughtErrorsExitOne`).

In one place the model does not follow the code. When an attribute column
is set, csv2gff3.py:183 indexes the record with the attribute literal,
which raises `TypeError` for every record. The transformer that the rest
of the model uses (`ProcessedRow`, `ProcessLine`, `Classify`, `GetGff3`)
reads the attribute column instead. So with `--attribute 7 --bounds 2 3`
the model writes a row where the tool stops. The read as written is kept
as `Transform.AttributeValueAsWritten`, and "## Findings" records the
defect.

## Model

| member | source | states |
|---|---|---|
| Transform.ProcessLine | csv2gff3.py:133-189 | filling nine `.` slots in order yields exactly `ProcessedRow`, including which error stops it |
| Transform.ProcessedRow | csv2gff3.py:133-189 | a produced row has exactly nine fields |
| Transform.SetField | csv2gff3.py:136-149 | one column-else-literal step writes only its own slot, with the column when set and the literal when non-empty |
| Transform.SetBounds | csv2gff3.py:151-162 | a bounds index outside the record gives the bounds error, a non-integer bound the integer error; otherwise slots 3 and 4 get the sorted bounds and no other slot changes |
| Transform.SetStrand | csv2gff3.py:167-175 | slot 6 gets the strand column, else the guess, else the literal, and no other slot changes |
| Transform.SetAttribute | csv2gff3.py:182-187 | slot 8 gets the attribute value, prefixed when the prefix applies, and slots 0 to 7 do not change |
| Transform.PyIndex | csv2gff3.py:152 | Python indexing of an addressable index is indexing at that index modulo the record length |
| Transform.BoundsText | csv2gff3.py:151-155 | fails with the bounds error exactly when an index addresses no field; otherwise the two texts are the fields at the bounds indices modulo the record length |
| Transform.GuessStrand | csv2gff3.py:169-173 | the guess is one of `+`, `-`, `.`, and `.` exactly when the two raw texts are equal |
| Transform.StrandField | csv2gff3.py:167-175 | fails exactly when the strand column is past the record, naming slot 6; without a column the strand is never empty |
| Transform.AttributeValue | csv2gff3.py:182-185 | the intended attribute read fails exactly when the attribute column is past the record, naming slot 8 |
| Transform.AttributeValueAsWritten | csv2gff3.py:182-185 | the read as written fails exactly when an attribute column is set, and otherwise never reads the record: it gives the literal or `.` |
| Transform.PrefixApplies | csv2gff3.py:186 | the prefix test on the truth of the name, the column index and the literal; its effect is stated by `RowProperties.AttributePrefix` |
| Transform.AttributeField | csv2gff3.py:182-187 | fails exactly when the attribute read fails; otherwise the field ends with the value read |
| Transform.SortedBounds | csv2gff3.py:157-162 | fails with the integer error exactly when a bound is not an integer; otherwise the two values, ascending |
| RowProperties.SucceedsIffProcessable | csv2gff3.py:133-189 | a record yields a row if and only if every set column is inside it and both bounds address integer fields |
| RowProperties.FieldsResolve | csv2gff3.py:134-180 | seqid, source, type, score and phase take a set column, else a non-empty literal, else stay `.`; score has no literal |
| RowProperties.FirstColumnErrors | csv2gff3.py:136-149 | the first of seqid, source and type whose column is past the record names the error |
| RowProperties.BoundsErrors | csv2gff3.py:151-162 | an unaddressable bound gives the bounds error, a non-integer bound the integer error, and no row |
| RowProperties.NegativeBoundsIndex | csv2gff3.py:152 | a negative bounds index reads from the end of the record |
| RowProperties.BoundsAscending | csv2gff3.py:158 | start and end read back as the smaller and the larger bound, so start <= end |
| RowProperties.BoundsWritten | csv2gff3.py:158 | slots 3 and 4 of a produced row are the sorted bounds as decimal text |
| RowProperties.CanonicalBoundsKept | csv2gff3.py:158 | bounds already in `str` form come out unchanged, smaller first |
| RowProperties.SwapBoundsText | csv2gff3.py:151-158 | exchanging the bounds columns exchanges the raw texts and keeps the sorted bounds |
| RowProperties.SwapBoundsSameErrors | csv2gff3.py:151-162 | exchanging the bounds columns leaves every failure and its error unchanged |
| RowProperties.SwapBoundsFlipsGuess | csv2gff3.py:158-173 | with the guess on, exchanging the bounds columns flips `+` and `-` and changes no other field |
| RowProperties.SwapBoundsKeepsRow | csv2gff3.py:158-175 | with the guess off, exchanging the bounds columns changes nothing |
| RowProperties.GuessStrandMeaning | csv2gff3.py:169-173 | the guess is `+` iff end sorts after start, `-` iff before, `.` iff the texts are equal |
| RowProperties.GuessStrandIsTextual | csv2gff3.py:169-173 | start `9` and end `10` guess `-` though 9 < 10 |
| RowProperties.StrandPrecedence | csv2gff3.py:167-175 | strand column over guess over literal over `.`; under the guess the literal is ignored |
| RowProperties.AttributePrefix | csv2gff3.py:182-187 | the attribute is `name=value` iff a name is given and the index is non-zero or the literal non-empty; otherwise the bare value |
| RowProperties.PrefixOnDefaults | csv2gff3.py:186-187 | with a name and no literal, index -1 gives `name=.` and index 0 the bare first column |
| RowProperties.AttributeReadAsWrittenFails | csv2gff3.py:182-183 | a set attribute column makes the read as written fail for every record, where the intended read gives the column |
| RowProperties.AttributeReadsAgreeWhenUnset | csv2gff3.py:182-185 | with the attribute column unset the read as written and the intended read agree |
| RowProperties.ExampleRecord | csv2gff3.py:133-189 | with seqid, source and type from columns 0 to 2 and bounds from columns 2 and 3, the record `chr1 AUGUSTUS 100 200 . + . gene1` gives `chr1 AUGUSTUS 100 100 200 . . . .` |
| Conversion.Classify | csv2gff3.py:193-197 | a line is skipped exactly when it is a comment once stripped; a row it yields has nine fields |
| Conversion.Converted | csv2gff3.py:191-198 | a run writes at most one row per input line |
| Conversion.ExitStatus | csv2gff3.py:155-162 | the status is 0 or 1, 0 after a normal end, and 1 exactly when an error other than the two diagnosed ones stopped the run |
| Conversion.Render | csv2gff3.py:208 | an output line starts with the row's first field |
| Conversion.GetGff3 | csv2gff3.py:191-198 | the loop over the lines yields exactly the run `Converted` describes |
| Conversion.NextLine | csv2gff3.py:192-197 | one loop pass classifies a line as skipped, a row, or the error that stops the run |
| Conversion.WriteRows | csv2gff3.py:207-208 | one output line per row, in order, each the row's fields joined with tabs |
| Conversion.CommentsOnly | csv2gff3.py:194-195 | an input of comment lines only yields no rows and no error |
| Conversion.RowsMatchDataLines | csv2gff3.py:191-198 | a run that ends normally has one row per non-comment line, in input order, each that line's row |
| Conversion.EmitMeans | csv2gff3.py:193-197 | a line yields a row iff it is neither blank nor a comment, the delimiter is non-empty and its fields transform |
| Conversion.ConvertedAppend | csv2gff3.py:191-198 | a failure ignores later lines; otherwise a run over more input continues the run so far |
| Conversion.RowsHaveNineFields | csv2gff3.py:134 | every row of a run has nine fields |
| Conversion.FieldsRejoin | csv2gff3.py:196 | a line's fields joined with the delimiter give back the stripped line |
| Conversion.RenderSplitsBack | csv2gff3.py:208 | an output line split at tabs gives back its fields when no field holds a tab |
| Conversion.DiagnosedErrorsExitZero | csv2gff3.py:151-162 | a run stopped by the bounds error or the integer error exits with the status of a normal end |
| Conversion.UncaughtErrorsExitOne | csv2gff3.py:191-198 | a run stopped by a column past the record, a blank line, an empty delimiter or the attribute read as written exits with status 1 |
| Text.Strip | csv2gff3.py:193 | stripping never lengthens a line; its full meaning is `Text.StripIsInfix` |
| Text.StripIsInfix | csv2gff3.py:193 | stripping keeps a contiguous piece that neither starts nor ends with whitespace, and cuts only whitespace |
| Text.StripIdempotent | csv2gff3.py:193 | stripping twice is stripping once |
| Text.Split | csv2gff3.py:196 | splitting always gives at least one field |
| Text.Join | csv2gff3.py:208 | the joined string starts with the first part |
| Text.JoinSplit | csv2gff3.py:196 | joining the fields of a split with its separator gives back the string |
| Text.SplitJoin | csv2gff3.py:208 | splitting a join on a one-character separator no field contains gives back the fields |
| Text.StrLess | csv2gff3.py:170-172 | `<` on strings: code points compared in order, a proper prefix first; its laws are the three lemmas below |
| Text.StrLessTrichotomy | csv2gff3.py:170-172 | exactly one of `a < b`, `a == b`, `b < a` holds |
| Text.StrLessIrreflexive | csv2gff3.py:170-172 | no string is less than itself |
| Text.StrLessTransitive | csv2gff3.py:170-172 | the string order is transitive |
| Integers.ParseInt | csv2gff3.py:158 | digits alone always read as a non-negative integer; accepted text ends in a digit, and a negative value starts with `-` |
| Integers.IntToString | csv2gff3.py:158 | `str(n)` is non-empty and starts with `-` exactly when n is negative |
| Integers.NatToDigits | csv2gff3.py:158 | `str` of a natural number is a non-empty digit string with no leading zero |
| Integers.DigitsRoundTrip | csv2gff3.py:158 | the digits `str` writes have the value written |
| Integers.ParseIntToString | csv2gff3.py:158 | `int(str(n)) == n` |
| Integers.IntToStringInjective | csv2gff3.py:158 | different integers get different decimal texts |
| Integers.ParseIntLenient | csv2gff3.py:158 | `int` accepts leading zeros and signs and rejects empty, sign-only and fractional text |

## Left out

- `_parser` and argparse (csv2gff3.py:8-131), `--version`, and opening the input file or standard input: the model takes a `Config` and a sequence of lines.
- Omitting `--bounds` (a `TypeError` on `None`, caught by nothing): `Config` always holds the bounds pair.
- Option values that argparse rejects at start-up, such as a non-integer column index: these never reach the transformer.
- Transform.ProcessedRow, Transform.ProcessLine, Conversion.Classify and Conversion.GetGff3: use the intended attribute read, not the `TypeError` that csv2gff3.py:183 raises whenever an attribute column is set; with such a column the model writes rows where the tool stops (see "## Findings").
- Printing to standard error and `raise SystemExit`: errors are `Error` tags, and `Conversion.ExitStatus` gives the status.
- Integers.ParseInt: does not accept what `int()` also accepts, namely surrounding whitespace, underscores between digits and non-ASCII digits; such bounds are modelled as not integers.
- Integers.ParseInt: has no digit limit. Python 3.11 and later (and some earlier security releases) refuse to convert more than 4300 digits (`sys.int_max_str_digits`) with a `ValueError`. So a bound of more than 4300 digits gets the "must be integers" stop in the tool, but reads as an integer in the model.
- Text.Strip: strips only ASCII whitespace (space, 9 to 13 and 28 to 31). It does not strip the other Unicode whitespace that `str.strip()` removes.
- Generator laziness: `GetGff3` builds the whole run as a value. The rows written before a failing line are kept in the run, but the interleaving of reading and writing is not modelled.
- The newline `print` adds after each output line: `WriteRows` gives the lines without it.

## Findings

| source | as written | input that shows it | evidently intended | confidence | as-written member | corrected member |
|---|---|---|---|---|---|---|
| csv2gff3.py:183 | the attribute column is read with the attribute literal (`args.attributes`, a string or `None`) as the index, which raises `TypeError` | `--attribute 7 --bounds 2 3` on the record `chr1 AUGUSTUS 100 200 . + . gene1` stops the run | read the record at the attribute column, giving `gene1` | not executed | Transform.AttributeValueAsWritten, RowProperties.AttributeReadAsWrittenFails | Transform.AttributeValue, RowProperties.AttributePrefix |
