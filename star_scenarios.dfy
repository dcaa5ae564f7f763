/** Worked inputs: what the parser returns on a few small STAR files.
    Each input is fixed line by line in the precondition. */
module StarScenarios {
  import opened StarText
  import opened StarGrammar
  import opened StarProperties

  /** `_<name>` names a column. */
  lemma NameLine(lines: seq<string>, pos: nat, name: string)
    requires pos < |lines| && IsToken(name) && lines[pos] == "_" + name + "\n"
    ensures DataNameAt(lines, pos) == Done(Some(name), pos + 1)
  {
    assert lines[pos][|NamePrefix|..] == Join([name]) + "\n";
    SplitLine([name]);
  }

  /** A run of `_<name>` lines, ended by a line that does not start with
      `_`, is collected as those names in order. */
  lemma {:induction false} NameLines(lines: seq<string>, pos: nat, names: seq<string>)
    requires pos + |names| < |lines| && !StartsWith(lines[pos + |names|], NamePrefix)
    requires forall k :: 0 <= k < |names| ==> IsToken(names[k])
    requires forall k :: pos <= k < pos + |names| ==> lines[k] == "_" + names[k - pos] + "\n"
    decreases |names|
    ensures DataNamesAt(lines, pos) == Done(names, pos + |names|)
  {
    if names != [] {
      NameLine(lines, pos, names[0]);
      NameLines(lines, pos + 1, names[1..]);
      assert [names[0]] + names[1..] == names;
    }
  }

  /** A row of space-separated words is collected as those words. */
  lemma RowLine(lines: seq<string>, pos: nat, words: seq<string>)
    requires pos < |lines| && lines[pos] != Blank && lines[pos] == Join(words) + "\n"
    requires forall k :: 0 <= k < |words| ==> IsToken(words[k])
    ensures RowsAt(lines, pos, |words|) == Cons([words], RowsAt(lines, pos + 1, |words|))
  {
    SplitLine(words);
    RowsStep(lines, pos, |words|);
  }

  /** Lines of `width` space-separated words, ended by a blank line, are
      collected as those rows in order, and the blank line is consumed. */
  lemma {:induction false} RowLines(lines: seq<string>, pos: nat, rows: seq<seq<string>>, width: nat)
    requires pos + |rows| < |lines| && lines[pos + |rows|] == Blank && 0 < width
    requires forall k :: 0 <= k < |rows| ==> |rows[k]| == width
    requires forall k, j :: 0 <= k < |rows| && 0 <= j < |rows[k]| ==> IsToken(rows[k][j])
    requires forall k :: pos <= k < pos + |rows| ==> lines[k] == Join(rows[k - pos]) + "\n"
    decreases |rows|
    ensures RowsAt(lines, pos, width) == Done(rows, pos + |rows| + 1)
  {
    if rows != [] {
      var row := rows[0];
      assert forall j :: 0 <= j < |row| ==> IsToken(row[j]);
      assert |Join(row)| > 0;
      RowLine(lines, pos, row);
      RowLines(lines, pos + 1, rows[1..], width);
      assert [row] + rows[1..] == rows;
    }
  }

  /** A successful block walk from the first, non-blank line is the parse. */
  lemma BlocksMakeFile(lines: seq<string>, blocks: seq<Block>, q: nat)
    requires lines != [] && lines[0] != Blank && BlocksAt(lines, 0) == Done(blocks, q)
    ensures Parse(lines) == Ok(FromBlocks(blocks))
  {
    assert SkipBlanks(lines, 0) == 0;
    FileFromParts(lines, 0, 0);
  }

  /** A failing first block fails the whole parse with the same fault. */
  lemma FirstBlockFails(lines: seq<string>, f: Fault)
    requires lines != [] && lines[0] != Blank && DataBlockAt(lines, 0) == Fail(f)
    ensures Parse(lines) == Err(f)
  {
    assert SkipBlanks(lines, 0) == 0;
    FileFromParts(lines, 0, 0);
  }

  /** A dictionary of one block. */
  lemma SingleBlockFile(b: Block)
    ensures FromBlocks([b]) == StarFile([b.name], map[b.name := b.table])
  {
    assert [b][..0] == [];
    assert [] + [b.name] == [b.name];
    assert EmptyFile.tables[b.name := b.table] == map[b.name := b.table];
  }

  /** Two blocks under one name: the name once, with the second table. */
  lemma SameNameTwice(b1: Block, b2: Block)
    requires b1.name == b2.name
    ensures FromBlocks([b1, b2]) == StarFile([b1.name], map[b1.name := b2.table])
  {
    assert [b1, b2][..1] == [b1];
    SingleBlockFile(b1);
    assert map[b1.name := b1.table][b1.name := b2.table] == map[b1.name := b2.table];
  }

  const TestTable := Table(["id", "value"], [["1", "foo"], ["2", "bar"]])

  lemma TestRows(lines: seq<string>)
    requires |lines| == 7 && lines[4] == "1 foo\n" && lines[5] == "2 bar\n" && lines[6] == "\n"
    ensures RowsAt(lines, 4, 2) == Done(TestTable.rows, 7)
  {
    assert Join(["1", "foo"]) == "1 foo" && Join(["2", "bar"]) == "2 bar";
    RowLines(lines, 4, TestTable.rows, 2);
  }

  lemma TestNames(lines: seq<string>)
    requires |lines| == 7 && lines[2] == "_id\n" && lines[3] == "_value\n" && lines[4] == "1 foo\n"
    ensures DataNamesAt(lines, 2) == Done(["id", "value"], 4)
  {
    assert lines[4][..1] == "1";
    NameLines(lines, 2, ["id", "value"]);
  }

  lemma TestBlock(lines: seq<string>)
    requires |lines| == 7 && lines[0] == "data_test\n" && lines[1] == "loop_\n" && lines[2] == "_id\n"
    requires lines[3] == "_value\n" && lines[4] == "1 foo\n" && lines[5] == "2 bar\n" && lines[6] == "\n"
    ensures DataBlockAt(lines, 0) == Done(Some(Block("test", TestTable)), 7)
  {
    TestRows(lines);
    TestNames(lines);
    LoopContentFromParts(lines, 2, ["id", "value"], 4);
    TestName(lines);
    DataBlockFromParts(lines, 0, 1);
  }

  /** The block name of `data_test`. */
  lemma TestName(lines: seq<string>)
    requires |lines| == 7 && lines[0] == "data_test\n"
    ensures StartsWith(lines[0], DataTag) && Strip(lines[0][|DataTag|..]) == "test"
  {
    assert lines[0][|DataTag|..] == "test" + "\n";
    StripTokenLine("test");
  }

  /** One block with two columns and two rows, closed by a blank line,
      becomes the one entry of the dictionary, under its name. */
  lemma OneBlock(lines: seq<string>)
    requires |lines| == 7 && lines[0] == "data_test\n" && lines[1] == "loop_\n" && lines[2] == "_id\n"
    requires lines[3] == "_value\n" && lines[4] == "1 foo\n" && lines[5] == "2 bar\n" && lines[6] == "\n"
    ensures Parse(lines) == Ok(StarFile(["test"], map["test" := Table(["id", "value"], [["1", "foo"], ["2", "bar"]])]))
  {
    var b := Block("test", TestTable);
    TestBlock(lines);
    assert DataBlockAt(lines, 7) == Done(None, 7);
    BlocksStep(lines, 0, b, 7);
    assert [b] + [] == [b];
    BlocksMakeFile(lines, [b], 7);
    SingleBlockFile(b);
  }

  /** Input that ends right after the data names: Python's
      AttributeError, not an empty table. */
  lemma EndAfterNames(lines: seq<string>)
    requires |lines| == 3 && lines[0] == "data_x\n" && lines[1] == "loop_\n" && lines[2] == "_a\n"
    ensures Parse(lines) == Err(NoneHasNoStartswith)
    ensures Raised(NoneHasNoStartswith) == AttributeError
  {
    assert lines[2][|NamePrefix|..][0] == 'a';
    NamesRunIntoEnd(lines, 2);
    DataBlockFromParts(lines, 0, 1);
    FirstBlockFails(lines, NoneHasNoStartswith);
  }

  /** `_a _b` declares the one data name `a`, so a row of three fields on
      line 4 is a width mismatch. */
  lemma RowTooWide(lines: seq<string>)
    requires |lines| == 4 && lines[0] == "data_x\n" && lines[1] == "loop_\n"
    requires lines[2] == "_a _b\n" && lines[3] == "1 2 3\n"
    ensures Parse(lines) == Err(RowWidthMismatch(4))
    ensures Raised(RowWidthMismatch(4)) == TypeError
  {
    RowTooWideLoop(lines);
    DataBlockFromParts(lines, 0, 1);
    FirstBlockFails(lines, RowWidthMismatch(4));
  }

  lemma RowTooWideLoop(lines: seq<string>)
    requires |lines| == 4 && lines[2] == "_a _b\n" && lines[3] == "1 2 3\n"
    ensures LoopContentAt(lines, 2) == Fail(RowWidthMismatch(4))
  {
    assert lines[2][|NamePrefix|..] == Join(["a", "_b"]) + "\n";
    SplitLine(["a", "_b"]);
    assert lines[3] == Join(["1", "2", "3"]) + "\n";
    SplitLine(["1", "2", "3"]);
    assert DataNamesAt(lines, 3) == Done([], 3) by {
      assert lines[3][..1] == "1";
    }
    assert DataNamesAt(lines, 2) == Done(["a"], 3) by {
      assert DataNameAt(lines, 2) == Done(Some("a"), 3);
      assert ["a"] + [] == ["a"];
    }
    assert RowsAt(lines, 3, 1) == Fail(RowWidthMismatch(4));
    LoopContentFromParts(lines, 2, ["a"], 3);
  }

  /** A data-name line with nothing after the underscore: Python's
      IndexError. */
  lemma EmptyName(lines: seq<string>)
    requires |lines| == 3 && lines[0] == "data_x\n" && lines[1] == "loop_\n" && lines[2] == "_ \n"
    ensures Parse(lines) == Err(EmptyDataName(3))
    ensures Raised(EmptyDataName(3)) == IndexError
  {
    assert lines[2][|NamePrefix|..] == " \n";
    assert Split(" \n") == [];
    assert DataNamesAt(lines, 2) == Fail(EmptyDataName(3));
    DataBlockFromParts(lines, 0, 1);
    FirstBlockFails(lines, EmptyDataName(3));
  }

  /** The `loop_` line may follow one blank line, and no other line. */
  lemma MissingLoopTag(lines: seq<string>)
    requires |lines| == 3 && lines[0] == "data_x\n" && lines[1] == "\n" && lines[2] == "_a\n"
    ensures Parse(lines) == Err(UnexpectedLine(LoopTag, Some("_a\n"), 3))
    ensures Raised(UnexpectedLine(LoopTag, Some("_a\n"), 3)) == TypeError
  {
    DataBlockFromParts(lines, 0, 2);
    FirstBlockFails(lines, UnexpectedLine(LoopTag, Some("_a\n"), 3));
  }

  /** A loop must declare at least one data name. */
  lemma NoNames(lines: seq<string>)
    requires |lines| == 3 && lines[0] == "data_x\n" && lines[1] == "loop_\n" && lines[2] == "1 2\n"
    ensures Parse(lines) == Err(NoDataNames(3))
    ensures Raised(NoDataNames(3)) == TypeError
  {
    assert DataNamesAt(lines, 2) == Done([], 2) by {
      assert lines[2][..1] == "1";
    }
    LoopContentFromParts(lines, 2, [], 2);
    DataBlockFromParts(lines, 0, 1);
    FirstBlockFails(lines, NoDataNames(3));
  }

  /** A one-column loop with the one row `v`, closed by a blank line. */
  lemma OneColumnLoop(lines: seq<string>, pos: nat, name: string, v: string)
    requires pos + 3 <= |lines| && IsToken(name) && IsToken(v) && v[0] != '_'
    requires lines[pos] == "_" + name + "\n" && lines[pos + 1] == v + "\n" && lines[pos + 2] == "\n"
    ensures LoopContentAt(lines, pos) == Done(Table([name], [[v]]), pos + 3)
  {
    NameLine(lines, pos, name);
    assert lines[pos + 1] == Join([v]) + "\n";
    RowLine(lines, pos + 1, [v]);
    assert DataNamesAt(lines, pos + 1) == Done([], pos + 1) by {
      assert lines[pos + 1][..1] == [v[0]];
    }
    assert DataNamesAt(lines, pos) == Done([name], pos + 1) by {
      assert [name] + [] == [name];
    }
    assert RowsAt(lines, pos + 2, 1) == Done([], pos + 3);
    assert [[v]] + [] == [[v]];
    LoopContentFromParts(lines, pos, [name], pos + 1);
  }

  /** `data_<name>`, `loop_`, one data name and one row, then a blank line. */
  lemma OneColumnBlock(lines: seq<string>, pos: nat, name: string, column: string, v: string)
    requires pos + 5 <= |lines| && IsToken(name) && IsToken(column) && IsToken(v) && v[0] != '_'
    requires lines[pos] == "data_" + name + "\n" && lines[pos + 1] == "loop_\n"
    requires lines[pos + 2] == "_" + column + "\n" && lines[pos + 3] == v + "\n" && lines[pos + 4] == "\n"
    ensures DataBlockAt(lines, pos) == Done(Some(Block(name, Table([column], [[v]]))), pos + 5)
  {
    OneColumnLoop(lines, pos + 2, column, v);
    assert lines[pos][|DataTag|..] == name + "\n";
    StripTokenLine(name);
    DataBlockFromParts(lines, pos, pos + 1);
  }

  /** Two blocks named `a`: the dictionary holds `a` once, with the second
      block's table. */
  lemma RepeatedName(lines: seq<string>)
    requires |lines| == 10 && lines[0] == "data_a\n" && lines[1] == "loop_\n" && lines[2] == "_x\n"
    requires lines[3] == "1\n" && lines[4] == "\n" && lines[5] == "data_a\n" && lines[6] == "loop_\n"
    requires lines[7] == "_x\n" && lines[8] == "2\n" && lines[9] == "\n"
    ensures Parse(lines) == Ok(StarFile(["a"], map["a" := Table(["x"], [["2"]])]))
  {
    var b1, b2 := Block("a", Table(["x"], [["1"]])), Block("a", Table(["x"], [["2"]]));
    RepeatedNameBlocks(lines);
    BlocksMakeFile(lines, [b1, b2], 10);
    SameNameTwice(b1, b2);
  }

  lemma RepeatedNameBlocks(lines: seq<string>)
    requires |lines| == 10 && lines[0] == "data_a\n" && lines[1] == "loop_\n" && lines[2] == "_x\n"
    requires lines[3] == "1\n" && lines[4] == "\n" && lines[5] == "data_a\n" && lines[6] == "loop_\n"
    requires lines[7] == "_x\n" && lines[8] == "2\n" && lines[9] == "\n"
    ensures BlocksAt(lines, 0) == Done([Block("a", Table(["x"], [["1"]])), Block("a", Table(["x"], [["2"]]))], 10)
  {
    var b1, b2 := Block("a", Table(["x"], [["1"]])), Block("a", Table(["x"], [["2"]]));
    RepeatedNameFirst(lines);
    RepeatedNameSecond(lines);
    BlocksStep(lines, 0, b1, 5);
    assert [b1] + [b2] == [b1, b2];
  }

  /** The first block of RepeatedName. */
  lemma RepeatedNameFirst(lines: seq<string>)
    requires |lines| >= 5 && lines[0] == "data_a\n" && lines[1] == "loop_\n" && lines[2] == "_x\n"
    requires lines[3] == "1\n" && lines[4] == "\n"
    ensures DataBlockAt(lines, 0) == Done(Some(Block("a", Table(["x"], [["1"]]))), 5)
  {
    OneColumnBlock(lines, 0, "a", "x", "1");
  }

  /** The second block of RepeatedName, which ends the input. */
  lemma RepeatedNameSecond(lines: seq<string>)
    requires |lines| == 10 && lines[5] == "data_a\n" && lines[6] == "loop_\n"
    requires lines[7] == "_x\n" && lines[8] == "2\n" && lines[9] == "\n"
    ensures BlocksAt(lines, 5) == Done([Block("a", Table(["x"], [["2"]]))], 10)
  {
    var b2 := Block("a", Table(["x"], [["2"]]));
    OneColumnBlock(lines, 5, "a", "x", "2");
    assert DataBlockAt(lines, 10) == Done(None, 10);
    BlocksStep(lines, 5, b2, 10);
    assert [b2] + [] == [b2];
  }

  /** A second blank line between blocks ends the parse: the block after it
      is never read. */
  lemma SecondBlankStops(lines: seq<string>)
    requires |lines| == 11 && lines[0] == "data_a\n" && lines[1] == "loop_\n" && lines[2] == "_x\n"
    requires lines[3] == "1\n" && lines[4] == "\n" && lines[5] == "\n" && lines[6] == "data_b\n"
    requires lines[7] == "loop_\n" && lines[8] == "_y\n" && lines[9] == "2\n" && lines[10] == "\n"
    ensures Parse(lines) == Ok(StarFile(["a"], map["a" := Table(["x"], [["1"]])]))
  {
    var b := Block("a", Table(["x"], [["1"]]));
    OneColumnBlock(lines, 0, "a", "x", "1");
    assert DataBlockAt(lines, 5) == Done(None, 5);
    BlocksStep(lines, 0, b, 5);
    assert [b] + [] == [b];
    BlocksMakeFile(lines, [b], 5);
    SingleBlockFile(b);
  }
}
