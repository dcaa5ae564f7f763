# STAR file parser, modelled in Dafny

`star_parser.py` reads a STAR file: an optional run of blank lines, then
`data_<name>` blocks. Each block has an optional blank line, a `loop_` line,
`_<name>` data-name lines, and rows of whitespace-separated values ending at a
blank line or at the end of input. The parser returns a dictionary from block
name to a table. It is a recursive-descent parser over a one-line cursor,
`LineStream`.

This project models that parser in Dafny and proves properties of the model:

- `StarText` models the Python string operations the parser uses:
  `str.isspace` with Python's exact whitespace set, `startswith`, `strip()`
  and `split()`.
- `StarGrammar` holds the data model: `Table` stands in for the DataFrame,
  `Block`, and `StarFile` for the dictionary, whose names keep insertion
  order.
- `StarGrammar` also holds the grammar, one pure function per parser method.
  Each function takes the input lines and a cursor position. It gives the
  value returned and where the cursor ends up, or the fault raised.
- `StarParser` models `LineStream` and `StarParser` as classes whose methods
  move the cursor in place. The `while` loops of `parse` and
  `parse_loop_content` carry invariants. The two loops of
  `parse_loop_content` are the methods `ParseDataNames` and `ParseRows`,
  which `ParseLoopContent` calls in turn. Each method is proved to agree with
  its grammar function.
- `StarProperties` proves what the parser promises for every input.
- `StarScenarios` works through small concrete files.

Faults are values, not exceptions. `Fault` records why a parse aborts, and
`Raised` says which Python exception actually escapes:
- each of the three `raise StarParseError(...)` statements gives a TypeError
  (see Findings);
- reading a data name at the end of input gives an AttributeError;
- a `_` line with nothing but whitespace after the underscore (`_\n`, `_ \n`)
  gives an IndexError.

In every case the whole parse aborts with no partial result.

Three behaviours below follow the code:

- Input that ends right after the data names gives an AttributeError, not an
  empty table. `parse_data_name` calls `startswith` on `None`.
- `_a _b` declares the single data name `a`, because only the first word
  after the underscore is taken. A following row `1 2 3` therefore fails on
  its own line, row 4.
- A second blank line between blocks ends the parse without error. Everything
  after it is ignored.

## Model

| member | source | states |
|---|---|---|
| StarText.StripInfix | star_parser.py:89 | `strip()` returns the infix of the string that starts after its leading whitespace, with only whitespace removed before and after it |
| StarText.StripEnds | star_parser.py:89 | the result of `strip()` is empty or neither starts nor ends with whitespace |
| StarText.StripTokenLine | star_parser.py:89 | a word followed by a line terminator strips to the word (the block name of `data_test\n` is `test`) |
| StarText.SplitTokens | star_parser.py:112 | every field of `split()` is a non-empty run without whitespace, and there are no fields exactly when the string is all whitespace |
| StarText.SplitHead | star_parser.py:126 | the first field of `split()` is the run of non-whitespace that starts at the first non-whitespace character |
| StarText.SplitJoin | star_parser.py:112 | `split()` undoes joining words with single spaces |
| StarText.SplitCons | star_parser.py:112 | a word followed by any run of whitespace is the first field and the rest is split on its own, so columns aligned with several spaces or tabs give the same fields as single spaces |
| StarText.SplitTrailingSpace | star_parser.py:112 | trailing whitespace, such as the line terminator, adds no field |
| StarText.SplitLine | star_parser.py:112 | a row written as space-separated words and a line terminator splits back into those words |
| StarGrammar.Raised | star_parser.py:11-19 | the exception that escapes: TypeError exactly for the three `StarParseError` raises (the constructor needs the stream as well as the description), AttributeError exactly for the end-of-input `startswith` |
| StarGrammar.CurrAt | star_parser.py:36-39 | the current line is `None` exactly at the end of input, and otherwise the line at the cursor |
| StarGrammar.NextPos | star_parser.py:41-46 | `next` moves one line on, and an exhausted cursor stays exhausted |
| StarGrammar.SkipBlanks | star_parser.py:70-71 | the leading loop skips exactly the lone line terminators and stops on the first other line or at the end of input |
| StarGrammar.DataNameAt | star_parser.py:121-128 | at the end of input the AttributeError fault; on a line not starting with `_`, no name and no move; on a `_` line with only whitespace after the underscore, the IndexError fault; otherwise a word, one line on |
| StarGrammar.DataNamesAt | star_parser.py:98-103 | one name per consumed line, stopping on the first line that does not start with `_`; its only faults are those of `parse_data_name` |
| StarGrammar.RowsAt | star_parser.py:108-117 | every collected row has exactly as many fields as there are data names; its only fault is a width mismatch |
| StarGrammar.LoopContentAt | star_parser.py:97-119 | a loop has at least one column and every row has one value per column; a loop never fails for want of `loop_` |
| StarGrammar.DataBlockAt | star_parser.py:84-95 | no block, no move and no fault exactly at the end of input or on a line not starting with `data_`; otherwise the block's name is the stripped text after `data_` and its table is well shaped |
| StarGrammar.BlocksAt | star_parser.py:74-80 | the block loop stops, without error and without a block, at the end of input or on a line that does not start with `data_`; a successful loop stops only there; every table is well shaped |
| StarGrammar.Insert | star_parser.py:80 | `data_blocks[name] = table`: the keys are the old keys and the name, the name maps to the new table, other entries are unchanged, a new name goes last and a repeated one keeps its place |
| StarGrammar.FromBlocks | star_parser.py:73-81 | the dictionary built from the blocks is valid: its names are exactly its keys, as many names as keys (so each once, see NamesDistinct), and its tables are well shaped when the blocks' are |
| StarGrammar.FileAt | star_parser.py:66-82 | a successful parse gives a dictionary whose tables are all well shaped |
| StarParser.LineStream.constructor | star_parser.py:25-29 | the cursor starts on the first line, or at the end of input for an empty file |
| StarParser.LineStream.Row | star_parser.py:31-34 | the 1-based number of the current line: the cursor's index plus one, so the current line is line `r - 1` of the input |
| StarParser.LineStream.Next | star_parser.py:41-46 | moves the cursor as `NextPos` says |
| StarParser.StarParser.constructor | star_parser.py:52-53 | a parser over a fresh cursor on the first line |
| StarParser.StarParser.Accept | star_parser.py:55-60 | true exactly when the current line equals the item, and then the cursor moves one line; otherwise it stays |
| StarParser.StarParser.Expect | star_parser.py:62-64 | succeeds and moves exactly when the line is the item; otherwise fails with the expected item, the line found and its row, without moving |
| StarParser.StarParser.Parse | star_parser.py:66-82 | returns what `FileAt` says, and leaves the cursor where it says |
| StarParser.StarParser.ParseDataBlock | star_parser.py:84-95 | returns what `DataBlockAt` says, and leaves the cursor where it says |
| StarParser.StarParser.ParseLoopContent | star_parser.py:97-119 | returns what `LoopContentAt` says, and leaves the cursor where it says |
| StarParser.StarParser.ParseDataNames | star_parser.py:98-103 | the data-name loop returns what `DataNamesAt` says, and leaves the cursor where it says |
| StarParser.StarParser.ParseRows | star_parser.py:108-117 | the row loop returns what `RowsAt` says, and leaves the cursor where it says |
| StarParser.StarParser.ParseDataName | star_parser.py:121-128 | returns what `DataNameAt` says, and leaves the cursor where it says |
| StarParser.ParseLines | star_parser.py:134 | `StarParser(f).parse()` gives `Parse(lines)` |
| StarProperties.BlankOnlyInput | star_parser.py:70-82 | an empty or all-blank input parses to the empty dictionary |
| StarProperties.ParsedTablesWellShaped | star_parser.py:105-119 | every table of a successful parse has at least one column and one value per column in every row |
| StarProperties.BlocksHaveColumns | star_parser.py:105-106 | every collected block has at least one data name |
| StarProperties.FromBlocksTables | star_parser.py:73-80 | every table in the dictionary is the table of a block of that name |
| StarProperties.FromBlocksNames | star_parser.py:73-80 | a name is in the dictionary exactly when some block has it |
| StarProperties.BlockNameKept | star_parser.py:80 | every block's name is a key of the dictionary |
| StarProperties.NamesDistinct | star_parser.py:73-80 | the dictionary lists each block name once |
| StarProperties.NamesInFirstOccurrenceOrder | star_parser.py:73-80 | the dictionary lists the block names in the order of each name's first block, as Python dictionaries keep insertion order |
| StarProperties.FirstWhenNew | star_parser.py:80 | a block adds a new name to the dictionary exactly when no earlier block has that name |
| StarProperties.LastBlockWins | star_parser.py:80 | a repeated block name keeps the table of its last block |
| StarProperties.RowsEnd | star_parser.py:109 | the row loop's stop line is the first blank line, or the end of input |
| StarProperties.RowsReference | star_parser.py:108-117 | the row loop succeeds exactly when every line before the stop line has one field per data name |
| StarProperties.RowsValue | star_parser.py:108-117 | a successful row loop returns the fields of the lines before the stop line, in order, and stands after the blank line |
| StarScenarios.RowLines | star_parser.py:108-117 | lines of as many space-separated words as there are data names, ended by a blank line, give those rows in order, and the blank line is consumed |
| StarProperties.RowsFailAtFirstMismatch | star_parser.py:112-114 | a failing row loop fails on the first line whose field count differs from the number of data names, and returns no rows |
| StarProperties.DataNamesValue | star_parser.py:98-103 | the data names are read from the consumed lines in input order: each of those lines starts with `_`, and the i-th name is what `parse_data_name` reads from the i-th line |
| StarScenarios.NameLines | star_parser.py:98-103 | a run of `_<name>` lines ended by a line not starting with `_` gives those names in order, and the cursor stands on the ending line |
| StarProperties.LoopNeedsDataNames | star_parser.py:98-106 | a loop fails for having no data names exactly when its first line does not start with `_`, and then reports that line's row |
| StarProperties.BlockNeedsLoopTag | star_parser.py:89-93 | a block fails for want of `loop_` exactly when the line after the tag line (after at most one blank line) is not `loop_`, and the fault names that line and its row |
| StarProperties.DataNameIsFirstWord | star_parser.py:126 | a data name is the first whitespace-delimited word after the `_` |
| StarProperties.NamesRunIntoEnd | star_parser.py:122 | data-name lines running into the end of input give the AttributeError fault |
| StarProperties.SkipBlanksLocal | star_parser.py:70-71 | skipping blank lines reads no line past the one it stops on |
| StarProperties.DataNamesLocal | star_parser.py:98-103 | the data-name loop reads no line past the one it stops on |
| StarProperties.RowsLocal | star_parser.py:108-117 | the row loop reads no line past its terminating blank line, the last line of the input included |
| StarProperties.LoopContentLocal | star_parser.py:97-119 | a loop reads no line past its terminating blank line, the last line of the input included |
| StarProperties.DataBlockLocal | star_parser.py:84-95 | a block reads no line past the one it stops on or its terminating blank line, the last line of the input included |
| StarProperties.BlocksLocal | star_parser.py:74-80 | the block loop reads no line past the one it stops on |
| StarProperties.ParseIgnoresRest | star_parser.py:74-77 | a parse that stops before the end of input stops on a line not starting with `data_`, and appending lines after it changes nothing |
| StarScenarios.OneBlock | star_parser.py:66-119 | a block with columns `id`, `value` and rows `1 foo`, `2 bar` parses to that one table under the name `test` |
| StarScenarios.EndAfterNames | star_parser.py:122 | `data_x`, `loop_`, `_a`, then the end of input: AttributeError |
| StarScenarios.RowTooWide | star_parser.py:113-114 | `_a _b` then `1 2 3`: width mismatch on row 4 (a TypeError as written) |
| StarScenarios.EmptyName | star_parser.py:126 | a `_` line with only whitespace after the underscore: IndexError |
| StarScenarios.MissingLoopTag | star_parser.py:91-93 | a data-name line where `loop_` is expected fails at row 3 (a TypeError as written) |
| StarScenarios.NoNames | star_parser.py:105-106 | a loop without data names fails (a TypeError as written) |
| StarScenarios.OneColumnBlock | star_parser.py:84-95 | a block with one data name and one row parses to that one-column table |
| StarScenarios.RepeatedName | star_parser.py:80 | two blocks named `a`: the dictionary holds `a` once, with the second block's table |
| StarScenarios.SameNameTwice | star_parser.py:80 | inserting two blocks of one name keeps the name once, with the second table |
| StarScenarios.SecondBlankStops | star_parser.py:74-77 | a second blank line between blocks ends the parse, and the later block is not read |

## Left out

- Command-line entry point (`main`, `argparse`, printing; star_parser.py:139-153): this is I/O only.
- `parse_star` opening and closing the file (star_parser.py:131-136). The model takes the file's lines, each with its terminator, as a sequence of strings. How Python splits a file into lines is not modelled.
- `pandas.DataFrame.from_records` is replaced by `Table`, which holds the column names and the rows of strings. pandas' own handling of the records is not modelled: index, dtypes, and duplicate column names.
- `StarParseError`'s attributes and message (file name, row, description text) are not modelled. A fault keeps only its kind, the row, and for `expect` the expected and found lines. The file name is not modelled because there is no file object.
- StarParser.LineStream.Row: at the end of input Python's `row` indexes `None` and raises a TypeError. The model returns one past the last line instead. Only `Expect` can call `Row` with the cursor at the end of input, and there the source raises a TypeError in any case. Every other call is made on a real line.
- Strings are sequences of Unicode code points. `isspace` uses Python's whitespace set, and no other Unicode behaviour (normalisation, case) is involved.
- Comments, string values and key-value pairs are not handled, because the source does not handle them either (its TODOs).

## Findings

| source | as written | input that shows it | evidently intended | confidence | as-written member | corrected member |
|---|---|---|---|---|---|---|
| star_parser.py:64 | `StarParseError` is built from the description alone, but its constructor also requires the stream, so a TypeError escapes instead of the parse error | `data_x\n`, `\n`, `_a\n` | a StarParseError at row 3 saying `loop_` was expected and `_a` found | high (not executed) | StarScenarios.MissingLoopTag | StarParser.StarParser.Expect |
| star_parser.py:106 | the same one-argument `StarParseError` call: a TypeError escapes | `data_x\n`, `loop_\n`, `1 2\n` | a StarParseError at row 3 saying the loop has no data names | high (not executed) | StarScenarios.NoNames | StarParser.StarParser.ParseLoopContent |
| star_parser.py:114 | the same one-argument `StarParseError` call: a TypeError escapes | `data_x\n`, `loop_\n`, `_a _b\n`, `1 2 3\n` | a StarParseError at row 4, the first row whose width differs | high (not executed) | StarScenarios.RowTooWide | StarProperties.RowsFailAtFirstMismatch |
