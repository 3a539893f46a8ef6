# CJK-aware Markdown table formatter, in Dafny

A model of the core of `server.py`, a formatter for Markdown pipe tables. It measures text by
its display width in a terminal: East-Asian wide (W) and fullwidth (F) characters take two
columns, all others one. It pads every cell of a column to the width of that column's widest
cell, and redraws the separator row as runs of hyphens. It does this for a single table
(`format_md_table`) and for every table in a Markdown document, leaving fenced code blocks
alone (`format_md_tables_in_text`).

The model is split into modules:

- `Text` (text.dfy): the Python string operations the source relies on. These are
  `strip`/`lstrip`/`rstrip` over a character set, `split`, `join`, `splitlines` with and
  without `keepends`, `startswith`/`endswith` and `" " * n`. Lemmas characterise the strip,
  split, join and `splitlines` operations; `startswith`, `endswith`, `" " * n` and the
  concatenation of lines are plain definitions.
- `Width` (width.dfy): `display_width` and `pad`.
  - The Unicode East Asian Width table is a parameter `eaw: char -> EastAsianWidth`.
  - `AsciiNarrow(eaw)` says that printable ASCII is narrow, as it is in the Unicode table.
  - Lemmas need it only where the widths of spaces, hyphens or pipes matter.
- `Patterns` (patterns.dfy): the separator and pipe-line regular expressions as predicates on
  a stripped line.
  - Each predicate is proved equal to a direct transcription of its regular expression: a
    small automaton for the separator, a recursive matcher for `^\|.+\|`.
- `TableFormatter` (table.dfy): `format_md_table`.
  - `FormatTable` and its helper functions say what the result is.
  - `FormatMdTable` and its helper methods are the source's loops, proved equal to those
    functions. Column widths are raised in place in an array, as the source does with
    `col_widths[j]`.
- `TableProperties` (table_props.dfy): what the formatter guarantees. That covers output shape,
  cell round trips, column widths and alignment.
- `TableIdempotence` (idempotence.dfy): when formatting a table twice gives the result of
  formatting it once, and an input where it does not.
- `DocumentScanner` (scanner.dfy): `format_md_tables_in_text`.
  - `Scan` is the loop as a recursive function, one turn (`Step`) per line or table run.
  - `ScanTables` is the loop itself, with the cursor and the code-block flag.
  - The scanner is stated for any table formatter. `FormatDocument` and `FormatTablesInText`
    plug in `format_md_table`.
- `ScannerProperties` (scanner_props.dfy): what is copied verbatim and what is replaced.
- `TableExamples` (table_examples.dfy): the table inputs of tests/test_formatter.py, each with
  the output `format_md_table` gives for it.
- `DocumentExamples` (document_examples.dfy): the document inputs of tests/test_formatter.py,
  each with the output `format_md_tables_in_text` gives for it.

The two separator regular expressions (server.py:29 and server.py:70) accept the same
strings. The second ends in `\s*$` where the first ends in `$`, but the last repeated group
already accepts trailing whitespace. One predicate, `Patterns.IsSeparator`, serves both.

Formatting a table twice does not always give the result of formatting it once; the model
follows the code:

- `TableIdempotence.FormatTwiceSame` proves that a second pass changes nothing when every
  line above the separator holds some character that is not whitespace, `-`, `:` or `|`.
- `TableIdempotence.IdempotenceCounterexample` shows an input where it fails:
  `| - |`, `|---|---|`, `| x | y |`.
  - The first pass renders the header as `| - |   |`.
  - The second pass takes that line for the separator, so the output changes.

## Model

| member | source | states |
|---|---|---|
| Width.DisplayWidth | server.py:10-15 | the width of a string lies between its length and twice its length |
| Width.MeasureWidth | server.py:10-15 | the accumulating loop adds 2 for each F or W character and 1 for each other one, and returns exactly DisplayWidth |
| Width.DisplayWidthAppend | server.py:10-15 | display width is additive over concatenation (the width of "" is 0) |
| Width.DisplayWidthIsLength | server.py:12-14 | the width equals the length if and only if no character is F or W |
| Width.DisplayWidthAllWide | server.py:12-14 | the width is twice the length if and only if every character is F or W |
| Width.AsciiWidth | server.py:12-14 | printable ASCII text is as wide as it is long |
| Width.DisplayWidthExamples | tests/test_formatter.py:9-19 | "" has width 0, "hello" 5, "日本語" 6 and "abc日本" 7, when the three ideographs are W |
| Width.PadWidth | server.py:18-19 | padding to a width at least the text's own gives exactly that display width |
| Width.PadShape | server.py:18-19 | the padded text is the text followed only by spaces, and is the text itself when it is already at least that wide |
| Width.PadStrip | server.py:18-19 | strip() of a padded stripped cell gives the cell back |
| Width.PadExamples | tests/test_formatter.py:23-30 | pad("hello", 10), pad("日本語", 10) and pad("hello", 5) are the expected strings |
| Patterns.PipeRegexAgrees | server.py:71 | the pipe-line regex, as a matcher, accepts a string if and only if it starts with '\|' and has another '\|' at index 2 or later with no line break before it |
| Patterns.SeparatorRegexAgrees | server.py:29 | the separator regex, as an automaton, accepts a string if and only if it starts with '\|', uses only whitespace, '-', ':' and '\|', and has a '\|' at an index from 2 to length minus 2 |
| Patterns.OneColumnNotSeparator | server.py:29 | a line whose only pipes are its first and last characters, such as `\|---\|`, is not a separator |
| Text.Split | server.py:41 | `split` gives at least one piece, no piece holds the separator, and joining the pieces gives the string back |
| Text.SplitJoin | server.py:41 | splitting pieces joined by a separator they do not hold gives the pieces back |
| Text.SplitLinesJoin | server.py:23 | `splitlines` of lines joined by "\n" gives those lines back |
| Text.SplitKeepEndsSpec | server.py:66 | `splitlines(keepends=True)` concatenates back to the text, and every line but the last ends in its line break |
| Text.StripIsStripped | server.py:41 | the result of `strip()` neither starts nor ends with whitespace |
| Text.StripCharsFramed | server.py:41 | strip over a character set removes exactly the framing characters around a stripped middle |
| TableFormatter.ParseCells | server.py:41 | a line parses into at least one cell, each stripped and holding no '\|' |
| TableFormatter.FirstSeparatorFrom | server.py:27-31 | the index found is a separator line and no line before it is; none is found only when no line is a separator |
| TableFormatter.MaxCellCount | server.py:44 | num_cols is at least every row's cell count and equals one of them |
| TableFormatter.ColumnWidth | server.py:45-48 | col_widths[j] is at least the width of every cell in column j, and is 0 or the width of one of those cells |
| TableFormatter.FindSeparator | server.py:27-31 | the search loop stops at the first separator line, or finds none |
| TableFormatter.ParseAllRows | server.py:36-42 | the parse loop yields [] for the separator and the cells of every other line |
| TableFormatter.WidenColumns | server.py:47-48 | after one row, each col_widths[c] is the larger of its old value and the width of the row's cell c |
| TableFormatter.ComputeColumnWidths | server.py:45-48 | the nested loops leave every col_widths[j] at the column's widest cell |
| TableFormatter.PadRow | server.py:56-59 | every column's cell, or "" past the row's end, padded to the column width |
| TableFormatter.RenderAllRows | server.py:50-60 | hyphen runs for the separator, padded cells for every other row, each line bracketed |
| TableFormatter.FormatMdTable | server.py:22-62 | the whole function returns the input unchanged when it is not a table, and the formatted lines joined by "\n" otherwise |
| TableProperties.SingleLineUnchanged | server.py:23-25 | a text without a line break is returned as it is |
| TableProperties.NotATableExample | tests/test_formatter.py:67-69 | "This is not a table" is returned as it is |
| TableProperties.NoSeparatorUnchanged | server.py:33-34 | a text none of whose lines is a separator is returned as it is |
| TableProperties.FormattedShape | server.py:50-60 | as many output lines as input lines; the separator is redrawn at its index and every other line re-rendered from its own cells |
| TableProperties.FormattedSplitLines | server.py:62 | the output splits back into exactly the formatted lines: no line break inside a line and none at the end |
| TableProperties.FormattedLinesBracketed | server.py:50-60 | every output line starts with "\| " and ends with " \|" |
| TableProperties.RenderRowRoundTrip | server.py:41-60 | parsing a rendered row gives its cells back, with "" for the columns it lacked |
| TableProperties.FormattedRowCells | server.py:41-60 | every non-separator output line parses to the input line's cells, filled up to num_cols with "" |
| TableProperties.SeparatorCells | server.py:53-54 | the redrawn separator parses to one run of col_widths[j] hyphens per column |
| TableProperties.RenderSeparatorIsSeparator | server.py:53-54 | the redrawn separator is a separator line if and only if the table has at least two columns |
| TableProperties.RenderRowWidth | server.py:56-60 | each padded cell is exactly as wide as its column, and the line's width is fixed by the column widths |
| TableProperties.TableHasColumns | server.py:44-45 | a table has num_cols ≥ 1 columns and one width per column |
| TableProperties.FormattedAligned | server.py:50-62 | every output line has the same display width, so all column borders line up |
| TableIdempotence.TextSurvivesRendering | server.py:41-60 | a line with text keeps text once parsed and re-rendered |
| TableIdempotence.SeparatorKept | server.py:27-54 | when the header lines hold text and the table has at least two columns, the output's first separator sits where the input's did |
| TableIdempotence.FormatTwiceSame | server.py:22-62 | when every line above the separator holds text, formatting the output again gives the output |
| TableIdempotence.IdempotenceCounterexample | server.py:22-62 | for `\| - \|`, `\|---\|---\|`, `\| x \| y \|` a second pass changes the output |
| DocumentScanner.RunEnd | server.py:88-95 | the run collected from line j ends at a line between j and the end of the document |
| DocumentScanner.RunEndSpec | server.py:89-95 | every line of the run matches one of the two patterns, and the line after it matches neither |
| DocumentScanner.RunLinesSpec | server.py:90-92 | the run holds each of its lines with the line break dropped and stripped |
| DocumentScanner.Step | server.py:73-105 | every turn of the loop moves the cursor forward by at least one line and never past the end |
| DocumentScanner.CollectRun | server.py:86-95 | the collecting loop stops at the run's end and yields its stripped lines |
| DocumentScanner.ScanLine | server.py:74-84 | the loop body's fence and pass-through branches do what one turn of the scan does |
| DocumentScanner.ScanRun | server.py:97-105 | a run with a separator and at least two lines becomes the formatted table, with "\n" kept when the last line had one; otherwise one line is copied |
| DocumentScanner.ScanTables | server.py:65-107 | the scanning loop returns the concatenation of the pieces of the scan |
| DocumentScanner.FormatTablesInText | server.py:65-107 | the whole function, with `format_md_table` as the formatter, is the document scan |
| ScannerProperties.ScanFence | server.py:74-79 | a fence line is copied and flips the code-block flag |
| ScannerProperties.ScanInCode | server.py:81-84 | inside a code block a non-fence line is copied |
| ScannerProperties.ScanCopies | server.py:81-105 | outside code, a line that does not start a qualifying run is copied |
| ScannerProperties.InCodeVerbatim | server.py:74-84 | inside a code block, the lines up to the next fence are copied as they are |
| ScannerProperties.FencedBlockVerbatim | tests/test_formatter.py:138-163 | a fenced block, both fences included, is copied as it is, and scanning goes on outside code |
| ScannerProperties.ScanUnchanged | server.py:73-107 | where no line is a separator, every line is copied |
| ScannerProperties.ScanReplaces | server.py:97-102 | outside code, a pipe line that starts a replaced run is replaced, with the rest of its run, by the run's replacement, and scanning goes on after the run |
| ScannerProperties.NoRunUnchanged | server.py:73-107 | where no line starts a run of at least two pattern lines holding a separator, every line, fences included, is copied as it is |
| ScannerProperties.NoRunDocumentUnchanged | server.py:65-107 | a document none of whose lines starts such a run comes back identical |
| ScannerProperties.NoSeparatorDocumentUnchanged | server.py:65-107 | a document without a separator line comes back identical |
| ScannerProperties.NoPipeDocumentUnchanged | server.py:65-107 | a document without a '\|' comes back identical |
| ScannerProperties.NoTablesExample | tests/test_formatter.py:134-136 | "# Title\n\nJust text.\n" comes back identical |
| ScannerProperties.RunLineShape | server.py:90-91 | a collected run line starts with '\|', is stripped and holds no line break |
| ScannerProperties.ReplacedRunIsTable | server.py:98-100 | a replaced run, joined by "\n", is a table whose lines are the run, so `format_md_table` never returns it unchanged |
| ScannerProperties.ReplacementIsFormatted | server.py:99-102 | the replacement is the formatted lines of the run, and the cursor moves past the run |
| Width.Pad | server.py:18-19 | definition: the text followed by as many spaces as its display width falls short of the width, none when it does not |
| Patterns.IsSeparator | server.py:29 | definition (also the pattern at line 70): starts with '\|', uses only whitespace, '-', ':' and '\|', and has a '\|' at an index from 2 to length minus 2 (proved equal to the regex by SeparatorRegexAgrees) |
| Patterns.IsPipeLine | server.py:71 | definition: starts with '\|' and has another '\|' at index 2 or later with no line break before it (proved equal to the regex by PipeRegexAgrees) |
| TableFormatter.ParseRows | server.py:36-42 | definition: the empty row at the separator's index and each other line's cells |
| TableFormatter.ColumnWidths | server.py:44-48 | definition: for each of num_cols columns, the widest cell in it (bounds proved on ColumnWidth) |
| TableFormatter.RenderTable | server.py:50-60 | definition: the redrawn separator at its index and every other row padded to the column widths |
| TableFormatter.FormatTable | server.py:22-62 | definition: the input as it is when it has fewer than two lines or no separator, otherwise the rendered lines joined by "\n" (properties in TableProperties) |
| DocumentScanner.Normalized | server.py:90 | definition: the line without its trailing "\n", stripped |
| DocumentScanner.IsFence | server.py:74-75 | definition: the line without its trailing "\n" and leading whitespace starts with three backticks |
| DocumentScanner.Replacement | server.py:100-101 | definition: the run joined by "\n" and formatted, with "\n" added when the run's last line had one |
| DocumentScanner.RunStep | server.py:97-105 | the cursor moves forward and not past the end: past the run when it is replaced, by one line otherwise |
| DocumentScanner.Scan | server.py:73-105 | definition: the pieces `result` collects from a line on, one turn of the loop at a time |
| DocumentScanner.ScanDocument | server.py:65-107 | definition: the document split with `keepends`, scanned from line 0 outside code, the pieces concatenated |
| DocumentScanner.FormatDocument | server.py:65-107 | definition: ScanDocument with `format_md_table` as the formatter |
| Text.ConcatAppend | server.py:107 | `"".join` of two lists of pieces, one after the other, is the join of the first followed by the join of the second |
| Text.SplitKeepEndsConcat | server.py:66 | lines shaped as `splitlines(keepends=True)` yields them are what it splits their concatenation into |
| TableExamples.TwoColumnTable | server.py:22-62 | a header, separator and body line of two cells each come out with each column padded to its wider cell and the separator redrawn at those widths |
| TableExamples.AsciiTableExample | tests/test_formatter.py:34-43 | the Name/Age table comes out padded as the test expects |
| TableExamples.CjkMixedTableExample | tests/test_formatter.py:45-54 | the 名前/説明 table comes out padded as the test expects, the ideographs counting two columns |
| TableExamples.SeparatorWidthExample | tests/test_formatter.py:56-65 | the A/BB table's separator is redrawn at the cells' widths, as the test expects |
| TableExamples.StripsCellWhitespaceExample | tests/test_formatter.py:71-81 | extra spaces around the cells are dropped, as the test expects |
| DocumentExamples.PlainLinesCopied | server.py:81-84 | lines with neither '\|' nor a backtick are copied as they are |
| DocumentExamples.RunReplacedAt | server.py:86-105 | three table lines followed by a plain line or the end are replaced by their replacement and scanning goes on after them |
| DocumentExamples.TwoRunScan | server.py:65-107 | prose, a table run, prose and a final table run: the prose is copied and each run replaced |
| DocumentExamples.FencedRunScan | server.py:74-105 | prose, a fenced block holding a table run, prose and a final table run: the block is copied as it is and only the last run is replaced |
| DocumentExamples.TableReplacement | server.py:100-101 | with `format_md_table` as the formatter, the replacement is the formatted table, plus "\n" unless the run's last line is the document's last |
| DocumentExamples.LetterTable | server.py:22-62 | a table of one-letter cells keeps its rows and gets the separator `\| - \| - \|` |
| DocumentExamples.SingleTableDocumentExample | tests/test_formatter.py:84-105 | the table between the prose is formatted and the prose is kept, as the test expects |
| DocumentExamples.MultipleTablesDocumentExample | tests/test_formatter.py:107-132 | both tables are formatted to their own column widths and the prose between them is kept, as the test expects |
| DocumentExamples.CodeBlockDocumentExample | tests/test_formatter.py:138-163 | the table inside the fenced block is copied as it is and the one after it formatted, as the test expects |

## Left out

- The Unicode East Asian Width table behind `unicodedata.east_asian_width` is a parameter of every
  width-dependent member. The examples state which classes they assume for the characters they use.
- `format_markdown_file` (file reading and writing and the status messages),
  `format_markdown_table` (a one-line tool wrapper around `format_md_table`), the FastMCP
  server registration and `main` are I/O and protocol plumbing. They are not part of this model.
- `splitlines` breaks lines only at "\n" here. Python also breaks at "\r", "\x0b", "\x0c",
  "\x1c"–"\x1e", "\x85", "\u2028" and "\u2029".
- `strip()` and `\s` use the whitespace characters of Python's `str.isspace()` as a fixed set.
- num_cols is the maximum cell count over all parsed rows. The source leaves out empty rows,
  but the only empty row is the separator's, and some other row has at least one cell, so the
  value is the same.
- No general regular-expression engine is modelled, only the three patterns at server.py:29,
  70 and 71.
- TableIdempotence.FormatTwiceSame: proved only when every line above the separator holds a
  character other than whitespace, '-', ':' and '|'. Without that, the code is not idempotent,
  as IdempotenceCounterexample shows, so no stronger statement holds.
- The examples of tests/test_formatter.py take the East Asian Width classes they rely on as
  preconditions (`AsciiNarrow`, `CjkWide`, `NameValueWide`), since the Unicode table is a
  parameter.
