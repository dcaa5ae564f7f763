/** What the parser promises about every input: the shape of the tables it
    returns, how rows are collected, which block wins when a name repeats,
    and that nothing after the line where it stops matters. */
module StarProperties {
  import opened StarText
  import opened StarGrammar

  /** An input of nothing but blank lines (or no lines at all) parses to
      the empty dictionary. */
  lemma BlankOnlyInput(lines: seq<string>)
    requires forall k :: 0 <= k < |lines| ==> lines[k] == Blank
    ensures Parse(lines) == Ok(EmptyFile)
  {
    assert SkipBlanks(lines, 0) == |lines|;
  }

  /** Every table of a successful parse has at least one column and as many
      fields in each row as it has columns. */
  lemma ParsedTablesWellShaped(lines: seq<string>)
    requires Parse(lines).Ok?
    ensures forall n :: n in Parse(lines).value.tables ==>
              |Parse(lines).value.tables[n].columns| >= 1 && WellShaped(Parse(lines).value.tables[n])
  {
    var blocks := BlocksAt(lines, SkipBlanks(lines, 0)).value;
    BlocksHaveColumns(lines, SkipBlanks(lines, 0));
    FromBlocksTables(blocks);
  }

  lemma {:induction false} BlocksHaveColumns(lines: seq<string>, pos: nat)
    requires pos <= |lines| && BlocksAt(lines, pos).Done?
    decreases |lines| - pos
    ensures forall i :: 0 <= i < |BlocksAt(lines, pos).value| ==> |BlocksAt(lines, pos).value[i].table.columns| >= 1
  {
    var d := DataBlockAt(lines, pos);
    if d.value.Some? {
      BlocksHaveColumns(lines, d.next);
    }
  }

  /** Every table in the dictionary is the table of some block. */
  lemma {:induction false} FromBlocksTables(blocks: seq<Block>)
    ensures forall n :: n in FromBlocks(blocks).tables ==>
              exists i :: 0 <= i < |blocks| && blocks[i].name == n && blocks[i].table == FromBlocks(blocks).tables[n]
  {
    if blocks != [] {
      var init, last := blocks[..|blocks| - 1], blocks[|blocks| - 1];
      var before, after := FromBlocks(init), FromBlocks(blocks);
      assert after == Insert(before, last);
      FromBlocksTables(init);
      forall n | n in after.tables
        ensures exists i :: 0 <= i < |blocks| && blocks[i].name == n && blocks[i].table == after.tables[n]
      {
        if n == last.name {
          assert blocks[|blocks| - 1].name == n && blocks[|blocks| - 1].table == after.tables[n];
        } else {
          assert n in before.tables && before.tables[n] == after.tables[n];
          var i :| 0 <= i < |init| && init[i].name == n && init[i].table == before.tables[n];
          assert blocks[i] == init[i];
        }
      }
    }
  }

  /** A repeated block name keeps the table of its last block: the last
      block with a given name decides what the dictionary holds for it. */
  lemma {:induction false} LastBlockWins(blocks: seq<Block>, i: nat)
    requires i < |blocks|
    requires forall j :: i < j < |blocks| ==> blocks[j].name != blocks[i].name
    ensures blocks[i].name in FromBlocks(blocks).tables
    ensures FromBlocks(blocks).tables[blocks[i].name] == blocks[i].table
  {
    if i < |blocks| - 1 {
      var init, last := blocks[..|blocks| - 1], blocks[|blocks| - 1];
      assert FromBlocks(blocks) == Insert(FromBlocks(init), last);
      LastBlockWins(init, i);
    }
  }

  /** The dictionary's names are exactly the block names. */
  lemma FromBlocksNames(blocks: seq<Block>, n: string)
    ensures n in FromBlocks(blocks).tables <==> exists i :: 0 <= i < |blocks| && blocks[i].name == n
  {
    FromBlocksTables(blocks);
    if exists i :: 0 <= i < |blocks| && blocks[i].name == n {
      var i :| 0 <= i < |blocks| && blocks[i].name == n;
      BlockNameKept(blocks, i);
    }
  }

  /** Every block's name ends up in the dictionary. */
  lemma {:induction false} BlockNameKept(blocks: seq<Block>, i: nat)
    requires i < |blocks|
    ensures blocks[i].name in FromBlocks(blocks).tables
  {
    var init, last := blocks[..|blocks| - 1], blocks[|blocks| - 1];
    assert FromBlocks(blocks) == Insert(FromBlocks(init), last);
    if i < |blocks| - 1 {
      BlockNameKept(init, i);
      assert init[i] == blocks[i];
    }
  }

  /** Block `k` is the first block with its name. */
  predicate FirstWithName(blocks: seq<Block>, k: nat)
    requires k < |blocks|
  {
    forall j :: 0 <= j < k ==> blocks[j].name != blocks[k].name
  }

  /** The names of those of the first `m` blocks that are the first with
      their name, in block order. */
  function FirstNames(blocks: seq<Block>, m: nat): seq<string>
    requires m <= |blocks|
  {
    if m == 0 then []
    else FirstNames(blocks, m - 1) + (if FirstWithName(blocks, m - 1) then [blocks[m - 1].name] else [])
  }

  /** The dictionary keeps its names in order of first occurrence: the
      names of the first `m` blocks are those blocks' names, each at the
      place of its first block. */
  lemma {:induction false} NamesInFirstOccurrenceOrder(blocks: seq<Block>, m: nat)
    requires m <= |blocks|
    ensures FromBlocks(blocks[..m]).names == FirstNames(blocks, m)
  {
    if m > 0 {
      var init := blocks[..m - 1];
      assert blocks[..m][..m - 1] == init;
      assert FromBlocks(blocks[..m]) == Insert(FromBlocks(init), blocks[m - 1]);
      NamesInFirstOccurrenceOrder(blocks, m - 1);
      FirstWhenNew(blocks, m - 1);
    }
  }

  /** Block `k` is the first with its name exactly when the blocks before
      it have not put that name in the dictionary. */
  lemma FirstWhenNew(blocks: seq<Block>, k: nat)
    requires k < |blocks|
    ensures FirstWithName(blocks, k) <==> blocks[k].name !in FromBlocks(blocks[..k]).tables
  {
    var init, n := blocks[..k], blocks[k].name;
    FromBlocksNames(init, n);
    if n in FromBlocks(init).tables {
      var i :| 0 <= i < |init| && init[i].name == n;
      assert blocks[i] == init[i];
    } else {
      forall j | 0 <= j < k
        ensures blocks[j].name != n
      {
        assert init[j] == blocks[j];
      }
    }
  }

  /** A valid dictionary lists each name once. */
  lemma NamesDistinct(f: StarFile)
    requires ValidFile(f)
    ensures forall i, j :: 0 <= i < j < |f.names| ==> f.names[i] != f.names[j]
  {
    assert NameSet(f.names) == f.tables.Keys;
    NameSetCount(f.names);
  }

  /** The names occurring in `s`. */
  function NameSet(s: seq<string>): (r: set<string>)
    ensures forall n :: n in r <==> n in s
  {
    set k | 0 <= k < |s| :: s[k]
  }

  /** `s` has no more distinct names than entries, and when it has as many,
      no name occurs twice. */
  lemma {:induction false} NameSetCount(s: seq<string>)
    ensures |NameSet(s)| <= |s|
    ensures |NameSet(s)| == |s| ==> forall i, j :: 0 <= i < j < |s| ==> s[i] != s[j]
  {
    if s != [] {
      var init, last := s[..|s| - 1], s[|s| - 1];
      assert s == init + [last];
      assert NameSet(s) == NameSet(init) + {last};
      NameSetCount(init);
      if |NameSet(s)| == |s| {
        assert last !in NameSet(init);
        forall i, j | 0 <= i < j < |s|
          ensures s[i] != s[j]
        {
          if j < |init| {
            assert s[i] == init[i] && s[j] == init[j];
          } else {
            assert s[i] in NameSet(init) by {
              assert init[i] == s[i];
            }
          }
        }
      }
    }
  }

  /** Where the row loop stops: the first blank line at or after `pos`, or
      the end of input. */
  function RowsEnd(lines: seq<string>, pos: nat): (e: nat)
    requires pos <= |lines|
    decreases |lines| - pos
    ensures pos <= e <= |lines|
    ensures forall k :: pos <= k < e ==> lines[k] != Blank
    ensures e == |lines| || lines[e] == Blank
  {
    if pos == |lines| || lines[pos] == Blank then pos else RowsEnd(lines, pos + 1)
  }

  /** The fields of each line of `lines[pos..e]`, in order. */
  function SplitLines(lines: seq<string>, pos: nat, e: nat): (rows: seq<seq<string>>)
    requires pos <= e <= |lines|
    ensures |rows| == e - pos && forall i :: 0 <= i < e - pos ==> rows[i] == Split(lines[pos + i])
  {
    seq(e - pos, i requires 0 <= i < e - pos => Split(lines[pos + i]))
  }

  /** The row loop, described without the loop: it succeeds exactly when
      every line up to the first blank line (or the end of input) has
      `width` fields. */
  lemma {:induction false} RowsReference(lines: seq<string>, pos: nat, width: nat)
    requires pos <= |lines|
    decreases |lines| - pos
    ensures RowsAt(lines, pos, width).Done? <==>
      forall k :: pos <= k < RowsEnd(lines, pos) ==> |Split(lines[k])| == width
  {
    if pos < |lines| && lines[pos] != Blank && |Split(lines[pos])| == width {
      RowsStep(lines, pos, width);
      RowsReference(lines, pos + 1, width);
      assert RowsEnd(lines, pos) == RowsEnd(lines, pos + 1);
    }
  }

  /** A successful row loop returns the fields of the lines up to the first
      blank line, in order, and stands after that blank line. */
  lemma {:induction false} RowsValue(lines: seq<string>, pos: nat, width: nat)
    requires pos <= |lines| && RowsAt(lines, pos, width).Done?
    decreases |lines| - pos
    ensures var e := RowsEnd(lines, pos);
      RowsAt(lines, pos, width) == Done(SplitLines(lines, pos, e), if e < |lines| then e + 1 else e)
  {
    if pos == |lines| || lines[pos] == Blank {
      assert SplitLines(lines, pos, pos) == [];
    } else {
      RowsStep(lines, pos, width);
      RowsValue(lines, pos + 1, width);
      var e := RowsEnd(lines, pos);
      assert e == RowsEnd(lines, pos + 1);
      assert SplitLines(lines, pos, e) == [Split(lines[pos])] + SplitLines(lines, pos + 1, e);
    }
  }

  /** When the row loop fails, it fails on the first line before the stop
      line whose field count differs from `width`, and returns no rows. */
  lemma {:induction false} RowsFailAtFirstMismatch(lines: seq<string>, pos: nat, width: nat)
    requires pos <= |lines| && RowsAt(lines, pos, width).Fail?
    decreases |lines| - pos
    ensures var r, e := RowsAt(lines, pos, width), RowsEnd(lines, pos);
      r.fault.RowWidthMismatch? && pos < r.fault.row <= e &&
      |Split(lines[r.fault.row - 1])| != width &&
      forall k :: pos <= k < r.fault.row - 1 ==> |Split(lines[k])| == width
  {
    if |Split(lines[pos])| == width {
      RowsStep(lines, pos, width);
      RowsFailAtFirstMismatch(lines, pos + 1, width);
    }
  }

  /** A data name is the first whitespace-delimited word after the `_`:
      whitespace may sit between the two, and the word ends at whitespace
      or at the end of the line. */
  lemma DataNameIsFirstWord(lines: seq<string>, pos: nat)
    requires pos <= |lines| && DataNameAt(lines, pos).Done? && DataNameAt(lines, pos).value.Some?
    ensures var s, name := lines[pos][|NamePrefix|..], DataNameAt(lines, pos).value.value;
      var i := LeadingSpace(s);
      i + |name| <= |s| && AllSpace(s[..i]) && s[i..i + |name|] == name &&
      (i + |name| == |s| || IsSpace(s[i + |name|]))
  {
    var s := lines[pos][|NamePrefix|..];
    var i := LeadingSpace(s);
    SplitTokens(s);
    LeadingSpaceIsSpace(s);
    SplitHead(s, i);
  }

  /** The data names come from the consumed lines in input order: the i-th
      name is what `parse_data_name` reads from the i-th line. */
  lemma {:induction false} DataNamesValue(lines: seq<string>, pos: nat)
    requires pos <= |lines| && DataNamesAt(lines, pos).Done?
    decreases |lines| - pos
    ensures var r := DataNamesAt(lines, pos);
      forall k :: pos <= k < pos + |r.value| ==>
        StartsWith(lines[k], NamePrefix) && DataNameAt(lines, k) == Done(Some(r.value[k - pos]), k + 1)
  {
    var d := DataNameAt(lines, pos);
    if d.value.Some? {
      DataNamesValue(lines, pos + 1);
      var r, rest := DataNamesAt(lines, pos), DataNamesAt(lines, pos + 1);
      assert r.value == [d.value.value] + rest.value;
      forall k | pos <= k < pos + |r.value|
        ensures StartsWith(lines[k], NamePrefix) && DataNameAt(lines, k) == Done(Some(r.value[k - pos]), k + 1)
      {
        if k == pos {
          assert d == Done(Some(d.value.value), pos + 1);
        } else {
          assert r.value[k - pos] == rest.value[k - (pos + 1)];
        }
      }
    }
  }

  /** A loop with no data names fails, and only then with that fault: there
      are none exactly when the loop's first line does not start with `_`. */
  lemma LoopNeedsDataNames(lines: seq<string>, pos: nat)
    requires pos <= |lines|
    ensures var r := LoopContentAt(lines, pos);
      r.Fail? && r.fault.NoDataNames? <==> pos < |lines| && !StartsWith(lines[pos], NamePrefix)
    ensures pos < |lines| && !StartsWith(lines[pos], NamePrefix) ==>
      LoopContentAt(lines, pos) == Fail(NoDataNames(pos + 1))
  {
    var names := DataNamesAt(lines, pos);
    if names.Done? {
      LoopContentFromParts(lines, pos, names.value, names.next);
      if names.value != [] {
        assert DataNameAt(lines, pos).Done? && DataNameAt(lines, pos).value.Some?;
      }
    }
  }

  /** A data block fails for want of `loop_` exactly when the line after the
      tag line, or after the one blank line that may follow it, is not
      `loop_`; the fault names that line and its row. */
  lemma BlockNeedsLoopTag(lines: seq<string>, pos: nat)
    requires pos < |lines| && StartsWith(lines[pos], DataTag)
    ensures var p := if CurrAt(lines, pos + 1) == Some(Blank) then pos + 2 else pos + 1;
      var r := DataBlockAt(lines, pos);
      (r.Fail? && r.fault.UnexpectedLine? <==> CurrAt(lines, p) != Some(LoopTag)) &&
      (CurrAt(lines, p) != Some(LoopTag) ==> r == Fail(UnexpectedLine(LoopTag, CurrAt(lines, p), p + 1)))
  {
    var p := if CurrAt(lines, pos + 1) == Some(Blank) then pos + 2 else pos + 1;
    DataBlockFromParts(lines, pos, p);
  }

  /** Input that ends right after the data names (no row, no blank line):
      the data-name loop asks the end-of-input marker whether it starts
      with `_`, which is an AttributeError rather than an empty table. */
  lemma {:induction false} NamesRunIntoEnd(lines: seq<string>, pos: nat)
    requires pos <= |lines|
    requires forall k :: pos <= k < |lines| ==>
               StartsWith(lines[k], NamePrefix) && !AllSpace(lines[k][|NamePrefix|..])
    decreases |lines| - pos
    ensures LoopContentAt(lines, pos) == Fail(NoneHasNoStartswith)
    ensures DataNamesAt(lines, pos) == Fail(NoneHasNoStartswith)
  {
    if pos < |lines| {
      SplitTokens(lines[pos][|NamePrefix|..]);
      NamesRunIntoEnd(lines, pos + 1);
    }
  }

  /* The parse reads no line past the one it stops on: appending lines
     after it changes nothing. One lemma per grammar function. */

  /** The step succeeded and read nothing past `lines`: it stopped on a line
      of `lines`, or consumed a terminating blank line of `lines`. */
  ghost predicate StopsInside<T>(lines: seq<string>, pos: nat, r: Parsed<T>)
  {
    r.Done? && pos <= r.next <= |lines| && (r.next < |lines| || (pos < r.next && lines[r.next - 1] == Blank))
  }

  lemma {:induction false} SkipBlanksLocal(lines: seq<string>, extra: seq<string>, pos: nat)
    requires pos <= |lines| && SkipBlanks(lines, pos) < |lines|
    decreases |lines| - pos
    ensures SkipBlanks(lines + extra, pos) == SkipBlanks(lines, pos)
  {
    assert (lines + extra)[pos] == lines[pos];
    if lines[pos] == Blank {
      SkipBlanksLocal(lines, extra, pos + 1);
    }
  }

  lemma {:induction false} DataNamesLocal(lines: seq<string>, extra: seq<string>, pos: nat)
    requires pos <= |lines| && DataNamesAt(lines, pos).Done?
    decreases |lines| - pos
    ensures DataNamesAt(lines + extra, pos) == DataNamesAt(lines, pos)
  {
    assert (lines + extra)[pos] == lines[pos];
    assert DataNameAt(lines + extra, pos) == DataNameAt(lines, pos);
    var d := DataNameAt(lines, pos);
    if d.value.Some? {
      DataNamesLocal(lines, extra, pos + 1);
    }
  }

  lemma {:induction false} RowsLocal(lines: seq<string>, extra: seq<string>, pos: nat, width: nat)
    requires pos <= |lines| && StopsInside(lines, pos, RowsAt(lines, pos, width))
    decreases |lines| - pos
    ensures RowsAt(lines + extra, pos, width) == RowsAt(lines, pos, width)
  {
    assert (lines + extra)[pos] == lines[pos];
    if lines[pos] != Blank {
      RowsLocal(lines, extra, pos + 1, width);
    }
  }

  lemma LoopContentLocal(lines: seq<string>, extra: seq<string>, pos: nat)
    requires pos <= |lines| && StopsInside(lines, pos, LoopContentAt(lines, pos))
    ensures LoopContentAt(lines + extra, pos) == LoopContentAt(lines, pos)
  {
    var names := DataNamesAt(lines, pos);
    DataNamesLocal(lines, extra, pos);
    RowsLocal(lines, extra, names.next, |names.value|);
  }

  lemma DataBlockLocal(lines: seq<string>, extra: seq<string>, pos: nat)
    requires pos <= |lines| && StopsInside(lines, pos, DataBlockAt(lines, pos))
    ensures DataBlockAt(lines + extra, pos) == DataBlockAt(lines, pos)
  {
    assert (lines + extra)[pos] == lines[pos];
    if StartsWith(lines[pos], DataTag) {
      TaggedBlockLocal(lines, extra, pos);
    }
  }

  /** DataBlockLocal for a block that is there: its tag line, the optional
      blank line and `loop_` are in `lines`, and so is the loop. */
  lemma TaggedBlockLocal(lines: seq<string>, extra: seq<string>, pos: nat)
    requires pos < |lines| && StartsWith(lines[pos], DataTag) && StopsInside(lines, pos, DataBlockAt(lines, pos))
    ensures DataBlockAt(lines + extra, pos) == DataBlockAt(lines, pos)
  {
    assert (lines + extra)[pos] == lines[pos];
    var p := if CurrAt(lines, pos + 1) == Some(Blank) then pos + 2 else pos + 1;
    DataBlockFromParts(lines, pos, p);
    assert CurrAt(lines, p) == Some(LoopTag);
    assert p < |lines| && pos + 1 < |lines|;
    CurrAtAppend(lines, extra, pos + 1);
    CurrAtAppend(lines, extra, p);
    var loop := LoopContentAt(lines, p + 1);
    assert loop.Done? && loop.next == DataBlockAt(lines, pos).next;
    assert StopsInside(lines, p + 1, loop);
    LoopContentLocal(lines, extra, p + 1);
    SameBlock(lines, lines + extra, pos, p);
  }

  /** Two inputs that agree on a tag line, the lines up to `loop_` and the
      loop after it hold the same block there. */
  lemma SameBlock(a: seq<string>, b: seq<string>, pos: nat, p: nat)
    requires pos < |a| && pos < |b| && a[pos] == b[pos] && StartsWith(a[pos], DataTag)
    requires pos + 1 <= |b| && CurrAt(a, pos + 1) == CurrAt(b, pos + 1)
    requires p == if CurrAt(a, pos + 1) == Some(Blank) then pos + 2 else pos + 1
    requires p < |a| && p < |b| && CurrAt(a, p) == CurrAt(b, p) && CurrAt(a, p) == Some(LoopTag)
    requires LoopContentAt(a, p + 1) == LoopContentAt(b, p + 1)
    ensures DataBlockAt(a, pos) == DataBlockAt(b, pos)
  {
    DataBlockFromParts(a, pos, p);
    DataBlockFromParts(b, pos, p);
  }

  lemma CurrAtAppend(lines: seq<string>, extra: seq<string>, k: nat)
    requires k < |lines|
    ensures CurrAt(lines + extra, k) == CurrAt(lines, k)
  {
    assert (lines + extra)[k] == lines[k];
  }

  lemma {:induction false} BlocksLocal(lines: seq<string>, extra: seq<string>, pos: nat)
    requires pos <= |lines| && BlocksAt(lines, pos).Done? && BlocksAt(lines, pos).next < |lines|
    decreases |lines| - pos
    ensures BlocksAt(lines + extra, pos) == BlocksAt(lines, pos)
  {
    var d := DataBlockAt(lines, pos);
    if d.value.Some? {
      BlocksLocal(lines, extra, d.next);
    }
    DataBlockLocal(lines, extra, pos);
  }

  /** The parse stops at the first line, between blocks, that does not start
      with `data_` (a second blank line between blocks included), without
      error; whatever follows that line is ignored. */
  lemma ParseIgnoresRest(lines: seq<string>, extra: seq<string>)
    requires FileAt(lines, 0).Done? && FileAt(lines, 0).next < |lines|
    ensures !StartsWith(lines[FileAt(lines, 0).next], DataTag)
    ensures Parse(lines + extra) == Parse(lines)
  {
    var p := SkipBlanks(lines, 0);
    FileFromParts(lines, 0, p);
    var b := BlocksAt(lines, p);
    assert b.Done? && b.next < |lines|;
    SkipBlanksLocal(lines, extra, 0);
    BlocksLocal(lines, extra, p);
    FileFromParts(lines + extra, 0, p);
  }
}
