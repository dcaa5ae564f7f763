/** The data of a parsed STAR file and the grammar the parser recognizes,
    written as pure functions of the input lines and a cursor position.
    Each function describes what one method of the parser does when it
    starts with the cursor at `pos`: the value it returns and where it
    leaves the cursor, or the fatal fault it raises. */
module StarGrammar {
  import opened StarText

  datatype Option<T> = None | Some(value: T)

  /** One loop of a data block: the declared data names and the rows, each
      row one value per data name (the parser's stand-in for a DataFrame). */
  datatype Table = Table(columns: seq<string>, rows: seq<seq<string>>)

  predicate WellShaped(t: Table)
  {
    forall i :: 0 <= i < |t.rows| ==> |t.rows[i]| == |t.columns|
  }

  /** A `data_` block: its name and its loop. */
  datatype Block = Block(name: string, table: Table)

  /** The dictionary the parser returns: block names in insertion order and
      the table stored under each. */
  datatype StarFile = StarFile(names: seq<string>, tables: map<string, Table>)

  /** The names are exactly the keys, each once: as many names as keys, and
      every name a key and every key a name. */
  predicate ValidFile(f: StarFile)
  {
    |f.names| == |f.tables| &&
    (forall n :: n in f.tables ==> n in f.names) &&
    (forall i :: 0 <= i < |f.names| ==> f.names[i] in f.tables)
  }

  const EmptyFile := StarFile([], map[])

  /** Why a parse aborts. The first three stand for the parser's
      `raise StarParseError(descr)` statements and carry what that error was
      meant to carry: a description and the row. As written those calls pass
      only the description, while the constructor also requires the stream,
      so the exception Python really raises there is a TypeError (see
      `Raised`); either way the whole parse aborts with no result. */
  datatype Fault =
    | UnexpectedLine(expected: string, found: Option<string>, row: nat)
    | NoDataNames(row: nat)
    | RowWidthMismatch(row: nat)
      /** `curr.startswith` called on the end-of-input marker `None`. */
    | NoneHasNoStartswith
      /** A data-name line with nothing but whitespace after `_`: indexing an empty `split()`. */
    | EmptyDataName(row: nat)

  datatype PythonException = TypeError | AttributeError | IndexError

  /** The Python exception that actually escapes for each fault. */
  function Raised(f: Fault): (e: PythonException)
    ensures e == TypeError <==> f.UnexpectedLine? || f.NoDataNames? || f.RowWidthMismatch?
    ensures e == AttributeError <==> f == NoneHasNoStartswith
  {
    match f
    case NoneHasNoStartswith => AttributeError
    case EmptyDataName(_) => IndexError
    case _ => TypeError
  }

  /** The outcome of a parsing step: a value and the cursor position after
      it, or a fault. */
  datatype Parsed<T> = Done(value: T, next: nat) | Fail(fault: Fault)

  /** What a method of the parser returns: a value, or the fault it raises. */
  datatype Result<T> = Ok(value: T) | Err(fault: Fault)

  function Outcome<T>(p: Parsed<T>): Result<T>
  {
    match p
    case Done(v, _) => Ok(v)
    case Fail(f) => Err(f)
  }

  /** `xs` put in front of the sequence a step produced. */
  function Cons<T>(xs: seq<T>, p: Parsed<seq<T>>): Parsed<seq<T>>
  {
    match p
    case Done(ys, q) => Done(xs + ys, q)
    case Fail(f) => Fail(f)
  }

  const DataTag := "data_"
  const LoopTag := "loop_\n"
  const Blank := "\n"
  const NamePrefix := "_"

  /** The current line of a cursor at `pos`; `None` once the lines are used up. */
  function CurrAt(lines: seq<string>, pos: nat): (r: Option<string>)
    requires pos <= |lines|
    ensures r.None? <==> pos == |lines|
    ensures r.Some? ==> r.value == lines[pos]
  {
    if pos < |lines| then Some(lines[pos]) else None
  }

  /** Where the cursor goes on `next`: one line on, and nowhere once exhausted. */
  function NextPos(lines: seq<string>, pos: nat): (r: nat)
    requires pos <= |lines|
    ensures r <= |lines|
    ensures pos < |lines| ==> r == pos + 1
    ensures pos == |lines| ==> r == pos && CurrAt(lines, r).None?
  {
    if pos < |lines| then pos + 1 else pos
  }

  /** The leading `while accept("\n")` loop of `parse`: the first position at
      or after `pos` whose line is not a lone line terminator. */
  function SkipBlanks(lines: seq<string>, pos: nat): (r: nat)
    requires pos <= |lines|
    decreases |lines| - pos
    ensures pos <= r <= |lines|
    ensures forall k :: pos <= k < r ==> lines[k] == Blank
    ensures r == |lines| || lines[r] != Blank
  {
    if pos < |lines| && lines[pos] == Blank then SkipBlanks(lines, pos + 1) else pos
  }

  /** `parse_data_name`: `None` (cursor unmoved) when the line does not start
      with `_`, else the first token after the `_`, one line on. */
  function DataNameAt(lines: seq<string>, pos: nat): (r: Parsed<Option<string>>)
    requires pos <= |lines|
    ensures r.Done? ==> pos < |lines|
    ensures r.Done? && r.value.None? ==> r.next == pos && !StartsWith(lines[pos], NamePrefix)
    ensures r.Done? && r.value.Some? ==>
              r.next == pos + 1 && StartsWith(lines[pos], NamePrefix) && IsToken(r.value.value)
    ensures pos == |lines| ==> r == Fail(NoneHasNoStartswith)
    ensures pos < |lines| && !StartsWith(lines[pos], NamePrefix) ==> r == Done(None, pos)
    ensures pos < |lines| && StartsWith(lines[pos], NamePrefix) ==>
              if AllSpace(lines[pos][|NamePrefix|..]) then r == Fail(EmptyDataName(pos + 1))
              else r.Done? && r.value.Some?
    ensures r.Fail? ==> r.fault == NoneHasNoStartswith || r.fault.EmptyDataName?
  {
    if pos == |lines| then Fail(NoneHasNoStartswith)
    else if !StartsWith(lines[pos], NamePrefix) then Done(None, pos)
    else
      var tokens := Split(lines[pos][|NamePrefix|..]);
      SplitTokens(lines[pos][|NamePrefix|..]);
      if tokens == [] then Fail(EmptyDataName(pos + 1)) else Done(Some(tokens[0]), pos + 1)
  }

  /** The data-name loop of `parse_loop_content`: data names up to the first
      line that does not start with `_`. */
  function DataNamesAt(lines: seq<string>, pos: nat): (r: Parsed<seq<string>>)
    requires pos <= |lines|
    decreases |lines| - pos
    ensures r.Done? ==> pos <= r.next < |lines| && r.next == pos + |r.value|
    ensures r.Done? ==> !StartsWith(lines[r.next], NamePrefix)
    ensures r.Fail? ==> r.fault == NoneHasNoStartswith || r.fault.EmptyDataName?
  {
    match DataNameAt(lines, pos)
    case Fail(f) => Fail(f)
    case Done(None, q) => Done([], q)
    case Done(Some(name), q) => Cons([name], DataNamesAt(lines, q))
  }

  /** The row loop of `parse_loop_content`: each line up to a lone line
      terminator (consumed) or the end of input is split on whitespace and
      must have `width` fields. */
  function RowsAt(lines: seq<string>, pos: nat, width: nat): (r: Parsed<seq<seq<string>>>)
    requires pos <= |lines|
    decreases |lines| - pos
    ensures r.Done? ==> pos <= r.next <= |lines|
    ensures r.Done? ==> forall i :: 0 <= i < |r.value| ==> |r.value[i]| == width
    ensures r.Fail? ==> r.fault.RowWidthMismatch?
  {
    if pos == |lines| then Done([], pos)
    else if lines[pos] == Blank then Done([], pos + 1)
    else
      var row := Split(lines[pos]);
      if |row| != width then Fail(RowWidthMismatch(pos + 1))
      else Cons([row], RowsAt(lines, pos + 1, width))
  }

  /** `parse_loop_content`: at least one data name, then rows of that width. */
  function LoopContentAt(lines: seq<string>, pos: nat): (r: Parsed<Table>)
    requires pos <= |lines|
    ensures r.Done? ==> pos < r.next <= |lines|
    ensures r.Done? ==> |r.value.columns| >= 1 && WellShaped(r.value)
    ensures r.Fail? ==> !r.fault.UnexpectedLine?
  {
    match DataNamesAt(lines, pos)
    case Fail(f) => Fail(f)
    case Done(names, q) =>
      if names == [] then Fail(NoDataNames(q + 1))
      else
        match RowsAt(lines, q, |names|)
        case Fail(f) => Fail(f)
        case Done(rows, q') => Done(Table(names, rows), q')
  }

  /** `parse_data_block`: `None` (cursor unmoved) at the end of input or on a
      line not starting with `data_`; otherwise the tag line, an optional
      blank line, the mandatory `loop_` line and the loop. */
  function DataBlockAt(lines: seq<string>, pos: nat): (r: Parsed<Option<Block>>)
    requires pos <= |lines|
    ensures r.Done? ==> r.next <= |lines|
    ensures r.Done? && r.value.None? ==> r.next == pos && (pos == |lines| || !StartsWith(lines[pos], DataTag))
    ensures pos == |lines| || !StartsWith(lines[pos], DataTag) ==> r == Done(None, pos)
    ensures r.Done? && r.value.Some? ==>
              pos < r.next && StartsWith(lines[pos], DataTag) &&
              r.value.value.name == Strip(lines[pos][|DataTag|..]) &&
              |r.value.value.table.columns| >= 1 && WellShaped(r.value.value.table)
  {
    if pos == |lines| || !StartsWith(lines[pos], DataTag) then Done(None, pos)
    else
      var name := Strip(lines[pos][|DataTag|..]);
      var p := NextPos(lines, pos);
      var p := if CurrAt(lines, p) == Some(Blank) then NextPos(lines, p) else p;
      if CurrAt(lines, p) != Some(LoopTag) then Fail(UnexpectedLine(LoopTag, CurrAt(lines, p), p + 1))
      else
        match LoopContentAt(lines, NextPos(lines, p))
        case Fail(f) => Fail(f)
        case Done(table, q) => Done(Some(Block(name, table)), q)
  }

  /** The block loop of `parse`: data blocks until one is absent. */
  function BlocksAt(lines: seq<string>, pos: nat): (r: Parsed<seq<Block>>)
    requires pos <= |lines|
    decreases |lines| - pos
    ensures r.Done? ==> pos <= r.next <= |lines|
    ensures r.Done? && r.next < |lines| ==> !StartsWith(lines[r.next], DataTag)
    ensures pos == |lines| || !StartsWith(lines[pos], DataTag) ==> r == Done([], pos)
    ensures r.Done? ==> forall i :: 0 <= i < |r.value| ==> WellShaped(r.value[i].table)
  {
    match DataBlockAt(lines, pos)
    case Fail(f) => Fail(f)
    case Done(None, q) => Done([], q)
    case Done(Some(b), q) => Cons([b], BlocksAt(lines, q))
  }

  /** `data_blocks[name] = table`: a new name goes last, a repeated one
      keeps its place and takes the new table. */
  function Insert(f: StarFile, b: Block): (r: StarFile)
    requires ValidFile(f)
    ensures ValidFile(r)
    ensures forall n :: n in r.tables <==> n in f.tables || n == b.name
    ensures b.name in r.tables && r.tables[b.name] == b.table
    ensures forall n :: n in f.tables && n != b.name ==> r.tables[n] == f.tables[n]
    ensures r.names == if b.name in f.tables then f.names else f.names + [b.name]
  {
    StarFile(if b.name in f.tables then f.names else f.names + [b.name], f.tables[b.name := b.table])
  }

  /** The dictionary built by inserting the blocks one after another. */
  function FromBlocks(blocks: seq<Block>): (r: StarFile)
    ensures ValidFile(r)
    ensures AllWellShaped(blocks) ==> forall n :: n in r.tables ==> WellShaped(r.tables[n])
  {
    if blocks == [] then EmptyFile
    else Insert(FromBlocks(blocks[..|blocks| - 1]), blocks[|blocks| - 1])
  }

  predicate AllWellShaped(blocks: seq<Block>)
  {
    forall i :: 0 <= i < |blocks| ==> WellShaped(blocks[i].table)
  }

  /** `parse`: skip blank lines, then collect the data blocks into a dictionary. */
  function FileAt(lines: seq<string>, pos: nat): (r: Parsed<StarFile>)
    requires pos <= |lines|
    ensures r.Done? ==> ValidFile(r.value) && pos <= r.next <= |lines|
    ensures r.Done? ==> forall n :: n in r.value.tables ==> WellShaped(r.value.tables[n])
  {
    match BlocksAt(lines, SkipBlanks(lines, pos))
    case Fail(f) => Fail(f)
    case Done(blocks, q) => Done(FromBlocks(blocks), q)
  }

  /** Parsing a whole input from its first line. */
  function Parse(lines: seq<string>): Result<StarFile>
  {
    Outcome(FileAt(lines, 0))
  }

  /* One-step unfoldings of the grammar functions, for the parser's proofs. */

  lemma RowsStep(lines: seq<string>, pos: nat, w: nat)
    requires pos < |lines| && lines[pos] != Blank && |Split(lines[pos])| == w
    ensures RowsAt(lines, pos, w) == Cons([Split(lines[pos])], RowsAt(lines, pos + 1, w))
  {
  }

  lemma LoopContentFromParts(lines: seq<string>, pos: nat, names: seq<string>, q: nat)
    requires pos <= |lines| && DataNamesAt(lines, pos) == Done(names, q)
    ensures names == [] ==> LoopContentAt(lines, pos) == Fail(NoDataNames(q + 1))
    ensures names != [] ==> (LoopContentAt(lines, pos) ==
      match RowsAt(lines, q, |names|)
      case Fail(f) => Fail(f)
      case Done(rows, q') => Done(Table(names, rows), q'))
  {
  }

  lemma DataBlockFromParts(lines: seq<string>, pos: nat, p: nat)
    requires pos < |lines| && StartsWith(lines[pos], DataTag)
    requires p == if CurrAt(lines, pos + 1) == Some(Blank) then pos + 2 else pos + 1
    ensures CurrAt(lines, p) != Some(LoopTag) ==>
              DataBlockAt(lines, pos) == Fail(UnexpectedLine(LoopTag, CurrAt(lines, p), p + 1))
    ensures CurrAt(lines, p) == Some(LoopTag) ==> (DataBlockAt(lines, pos) ==
      match LoopContentAt(lines, p + 1)
      case Fail(f) => Fail(f)
      case Done(table, q) => Done(Some(Block(Strip(lines[pos][|DataTag|..]), table)), q))
  {
  }

  lemma BlocksStep(lines: seq<string>, pos: nat, b: Block, q: nat)
    requires pos <= |lines| && DataBlockAt(lines, pos) == Done(Some(b), q)
    ensures BlocksAt(lines, pos) == Cons([b], BlocksAt(lines, q))
  {
  }

  lemma FileFromParts(lines: seq<string>, pos: nat, p: nat)
    requires pos <= |lines| && p == SkipBlanks(lines, pos)
    ensures FileAt(lines, pos) ==
      match BlocksAt(lines, p)
      case Fail(f) => Fail(f)
      case Done(blocks, q) => Done(FromBlocks(blocks), q)
  {
  }
}
