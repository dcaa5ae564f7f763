/** The parser itself: a line cursor and a recursive-descent recognizer
    that moves it. Every method is proved to do what the matching function
    of `StarGrammar` describes. */
module StarParser {
  import opened StarText
  import opened StarGrammar

  /** A cursor over the lines of the input. The current line is
      `lines[index]`, or the end-of-input marker once `index == |lines|`. */
  class LineStream {
    const lines: seq<string>
    var index: nat

    ghost predicate Valid()
      reads this
    {
      index <= |lines|
    }

    /** The first line is read at once: the cursor starts on it. */
    constructor (lines: seq<string>)
      ensures Valid() && this.lines == lines && index == 0
      ensures Curr() == if lines == [] then None else Some(lines[0])
    {
      this.lines := lines;
      index := 0;
    }

    function Curr(): Option<string>
      reads this
      requires Valid()
    {
      CurrAt(lines, index)
    }

    /** The 1-based number of the current line; at the end of input, one
        past the last line. */
    function Row(): (r: nat)
      reads this
      requires Valid()
      ensures r == index + 1
      ensures 1 <= r <= |lines| + 1
      ensures r <= |lines| ==> Curr() == Some(lines[r - 1])
      ensures r == |lines| + 1 <==> Curr().None?
    {
      index + 1
    }

    /** One line on; once exhausted the cursor stays exhausted. */
    method Next()
      requires Valid()
      modifies this
      ensures Valid() && index == NextPos(lines, old(index))
    {
      if index < |lines| {
        index := index + 1;
      }
    }
  }

  /** A method that returned `r` and left the cursor at `index` behaved as
      the grammar step `p` says. */
  ghost predicate Agrees<T>(r: Result<T>, index: nat, p: Parsed<T>)
  {
    r == Outcome(p) && (p.Done? ==> index == p.next)
  }

  lemma ConsNil<T>(p: Parsed<seq<T>>)
    ensures Cons([], p) == p
  {
    if p.Done? {
      assert [] + p.value == p.value;
    }
  }

  lemma ConsSnoc<T>(xs: seq<T>, x: T, p: Parsed<seq<T>>)
    ensures Cons(xs + [x], p) == Cons(xs, Cons([x], p))
  {
    if p.Done? {
      assert xs + [x] + p.value == xs + ([x] + p.value);
    }
  }

  /** One more row of the right width extends the rows collected so far. */
  lemma RowsAdvance(lines: seq<string>, first: nat, rows: seq<seq<string>>, before: nat, row: seq<string>, w: nat)
    requires first <= before < |lines| && lines[before] != Blank && row == Split(lines[before]) && |row| == w
    requires RowsAt(lines, first, w) == Cons(rows, RowsAt(lines, before, w))
    ensures RowsAt(lines, first, w) == Cons(rows + [row], RowsAt(lines, before + 1, w))
  {
    RowsStep(lines, before, w);
    ConsSnoc(rows, row, RowsAt(lines, before + 1, w));
  }

  /** A row of the wrong width makes the whole row loop fail on that row. */
  lemma RowsStopHere(lines: seq<string>, first: nat, rows: seq<seq<string>>, before: nat, w: nat)
    requires first <= before < |lines| && lines[before] != Blank && |Split(lines[before])| != w
    requires RowsAt(lines, first, w) == Cons(rows, RowsAt(lines, before, w))
    ensures RowsAt(lines, first, w) == Fail(RowWidthMismatch(before + 1))
  {
  }

  /** One more block extends the blocks collected so far, and the dictionary
      built from them takes it in. */
  lemma BlocksAdvance(lines: seq<string>, first: nat, seen: seq<Block>, before: nat, b: Block, q: nat)
    requires first <= before <= |lines| && DataBlockAt(lines, before) == Done(Some(b), q)
    requires BlocksAt(lines, first) == Cons(seen, BlocksAt(lines, before))
    ensures BlocksAt(lines, first) == Cons(seen + [b], BlocksAt(lines, q))
    ensures FromBlocks(seen + [b]) == Insert(FromBlocks(seen), b)
  {
    BlocksStep(lines, before, b, q);
    ConsSnoc(seen, b, BlocksAt(lines, q));
    assert (seen + [b])[..|seen|] == seen;
  }

  class StarParser {
    const stream: LineStream

    constructor (lines: seq<string>)
      ensures fresh(stream) && stream.Valid() && stream.lines == lines && stream.index == 0
    {
      stream := new LineStream(lines);
    }

    /** A probe: on a match, move one line on and say so; otherwise stay put. */
    method Accept(item: Option<string>) returns (ok: bool)
      requires stream.Valid()
      modifies stream
      ensures stream.Valid()
      ensures ok <==> old(stream.Curr()) == item
      ensures stream.index == if ok then NextPos(stream.lines, old(stream.index)) else old(stream.index)
    {
      if stream.Curr() == item {
        stream.Next();
        return true;
      }
      return false;
    }

    /** A mandatory line: `accept` it or fail with what was found. */
    method Expect(item: string) returns (r: Result<()>)
      requires stream.Valid()
      modifies stream
      ensures stream.Valid()
      ensures r.Ok? <==> old(stream.Curr()) == Some(item)
      ensures r.Ok? ==> stream.index == old(stream.index) + 1
      ensures r.Err? ==> stream.index == old(stream.index) &&
                         r.fault == UnexpectedLine(item, old(stream.Curr()), old(stream.index) + 1)
    {
      var ok := Accept(Some(item));
      if !ok {
        return Err(UnexpectedLine(item, stream.Curr(), stream.Row()));
      }
      return Ok(());
    }

    method Parse() returns (r: Result<StarFile>)
      requires stream.Valid()
      modifies stream
      ensures stream.Valid()
      ensures Agrees(r, stream.index, FileAt(stream.lines, old(stream.index)))
    {
      ghost var start := stream.index;
      while true
        invariant stream.Valid() && start <= stream.index
        invariant SkipBlanks(stream.lines, start) == SkipBlanks(stream.lines, stream.index)
        decreases |stream.lines| - stream.index
      {
        var blank := Accept(Some(Blank));
        if !blank {
          break;
        }
      }
      FileFromParts(stream.lines, start, stream.index);

      var blocks := EmptyFile;
      ghost var first := stream.index;
      ghost var seen: seq<Block> := [];
      ConsNil(BlocksAt(stream.lines, first));
      while true
        invariant stream.Valid() && first <= stream.index
        invariant BlocksAt(stream.lines, first) == Cons(seen, BlocksAt(stream.lines, stream.index))
        invariant blocks == FromBlocks(seen)
        decreases |stream.lines| - stream.index
      {
        ghost var before := stream.index;
        var block := ParseDataBlock();
        if block.Err? {
          assert BlocksAt(stream.lines, first) == Fail(block.fault);
          return Err(block.fault);
        }
        if block.value.None? {
          assert BlocksAt(stream.lines, before) == Done([], stream.index);
          assert seen + [] == seen;
          break;
        }
        BlocksAdvance(stream.lines, first, seen, before, block.value.value, stream.index);
        blocks := Insert(blocks, block.value.value);
        seen := seen + [block.value.value];
      }
      return Ok(blocks);
    }

    method ParseDataBlock() returns (r: Result<Option<Block>>)
      requires stream.Valid()
      modifies stream
      ensures stream.Valid()
      ensures Agrees(r, stream.index, DataBlockAt(stream.lines, old(stream.index)))
    {
      ghost var lines := stream.lines;
      ghost var start := stream.index;
      var curr := stream.Curr();
      if curr.None? || !StartsWith(curr.value, DataTag) {
        return Ok(None);
      }
      var name := Strip(curr.value[|DataTag|..]);
      stream.Next();
      var _ := Accept(Some(Blank));
      ghost var tagAt := stream.index;
      DataBlockFromParts(lines, start, tagAt);
      var loop := Expect(LoopTag);
      if loop.Err? {
        return Err(loop.fault);
      }
      var table := ParseLoopContent();
      if table.Err? {
        return Err(table.fault);
      }
      return Ok(Some(Block(name, table.value)));
    }

    /** `parse_loop_content`: the data names, then at least one of them, then
        the rows. */
    method ParseLoopContent() returns (r: Result<Table>)
      requires stream.Valid()
      modifies stream
      ensures stream.Valid()
      ensures Agrees(r, stream.index, LoopContentAt(stream.lines, old(stream.index)))
    {
      ghost var start := stream.index;
      var names := ParseDataNames();
      if names.Err? {
        return Err(names.fault);
      }
      LoopContentFromParts(stream.lines, start, names.value, stream.index);
      if |names.value| == 0 {
        return Err(NoDataNames(stream.Row()));
      }
      var rows := ParseRows(|names.value|);
      if rows.Err? {
        return Err(rows.fault);
      }
      return Ok(Table(names.value, rows.value));
    }

    /** The data-name loop of `parse_loop_content`: one name per `_` line. */
    method ParseDataNames() returns (r: Result<seq<string>>)
      requires stream.Valid()
      modifies stream
      ensures stream.Valid()
      ensures Agrees(r, stream.index, DataNamesAt(stream.lines, old(stream.index)))
    {
      ghost var lines := stream.lines;
      ghost var start := stream.index;
      var names: seq<string> := [];
      ConsNil(DataNamesAt(lines, start));
      while true
        invariant stream.Valid() && start + |names| == stream.index
        invariant DataNamesAt(lines, start) == Cons(names, DataNamesAt(lines, stream.index))
        decreases |lines| - stream.index
      {
        ghost var before := stream.index;
        var name := ParseDataName();
        if name.Err? {
          return Err(name.fault);
        }
        if name.value.None? {
          assert DataNamesAt(lines, before) == Done([], stream.index);
          assert names + [] == names;
          break;
        }
        ConsSnoc(names, name.value.value, DataNamesAt(lines, stream.index));
        names := names + [name.value.value];
      }
      return Ok(names);
    }

    /** The row loop of `parse_loop_content`: rows of `width` fields up to a
        blank line or the end of input. */
    method ParseRows(width: nat) returns (r: Result<seq<seq<string>>>)
      requires stream.Valid()
      modifies stream
      ensures stream.Valid()
      ensures Agrees(r, stream.index, RowsAt(stream.lines, old(stream.index), width))
    {
      ghost var lines := stream.lines;
      ghost var first := stream.index;
      var rows: seq<seq<string>> := [];
      ConsNil(RowsAt(lines, first, width));
      while true
        invariant stream.Valid() && first <= stream.index
        invariant RowsAt(lines, first, width) == Cons(rows, RowsAt(lines, stream.index, width))
        decreases |lines| - stream.index
      {
        ghost var before := stream.index;
        var blank := Accept(Some(Blank));
        if blank {
          assert RowsAt(lines, before, width) == Done([], stream.index);
          break;
        }
        var end := Accept(None);
        if end {
          assert RowsAt(lines, before, width) == Done([], stream.index);
          break;
        }
        var row := Split(stream.Curr().value);
        if |row| != width {
          RowsStopHere(lines, first, rows, before, width);
          return Err(RowWidthMismatch(stream.Row()));
        }
        RowsAdvance(lines, first, rows, before, row, width);
        rows := rows + [row];
        stream.Next();
      }
      assert rows + [] == rows;
      return Ok(rows);
    }

    method ParseDataName() returns (r: Result<Option<string>>)
      requires stream.Valid()
      modifies stream
      ensures stream.Valid()
      ensures Agrees(r, stream.index, DataNameAt(stream.lines, old(stream.index)))
    {
      var curr := stream.Curr();
      if curr.None? {
        return Err(NoneHasNoStartswith);
      }
      if !StartsWith(curr.value, NamePrefix) {
        return Ok(None);
      }
      var tokens := Split(curr.value[|NamePrefix|..]);
      if tokens == [] {
        return Err(EmptyDataName(stream.Row()));
      }
      stream.Next();
      return Ok(Some(tokens[0]));
    }
  }

  /** `StarParser(lines).parse()`: parse an input from its first line. */
  method ParseLines(lines: seq<string>) returns (r: Result<StarFile>)
    ensures r == Parse(lines)
  {
    var parser := new StarParser(lines);
    r := parser.Parse();
  }
}
