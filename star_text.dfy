/** Python's string helpers as the parser uses them: `str.isspace` on one
    character, `str.startswith`, `str.strip()` and `str.split()`, both of the
    latter without arguments (so they use Python's whitespace set). */
module StarText {

  /** The characters for which Python's `str.isspace` is true: the ASCII
      controls tab to carriage return and the file, group, record and unit
      separators, the space, and the Unicode spaces and line and paragraph
      separators. */
  predicate IsSpace(c: char)
  {
    ('\t' <= c <= '\r') || ('\U{1C}' <= c <= ' ') || c == '\U{85}' || c == '\U{A0}' || c == '\U{1680}' ||
    ('\U{2000}' <= c <= '\U{200A}') || c == '\U{2028}' || c == '\U{2029}' || c == '\U{202F}' ||
    c == '\U{205F}' || c == '\U{3000}'
  }

  predicate AllSpace(s: string)
  {
    forall i :: 0 <= i < |s| ==> IsSpace(s[i])
  }

  /** A token of `split()`: a non-empty run of non-whitespace characters. */
  predicate IsToken(t: string)
  {
    t != [] && forall i :: 0 <= i < |t| ==> !IsSpace(t[i])
  }

  predicate StartsWith(s: string, prefix: string)
  {
    |prefix| <= |s| && s[..|prefix|] == prefix
  }

  /** `s.strip()`: drops the whitespace at both ends. */
  function Strip(s: string): (r: string)
    decreases |s|
  {
    if s != [] && IsSpace(s[0]) then Strip(s[1..])
    else if s != [] && IsSpace(s[|s| - 1]) then Strip(s[..|s| - 1])
    else s
  }

  /** A token followed by a line terminator strips to the token. */
  lemma StripTokenLine(t: string)
    requires IsToken(t)
    ensures Strip(t + "\n") == t
  {
    var s := t + "\n";
    assert s[0] == t[0] && s[|s| - 1] == '\n';
    assert s[..|s| - 1] == t;
    assert Strip(t) == t;
  }

  /** Number of whitespace characters at the start of `s`. */
  function LeadingSpace(s: string): (n: nat)
    ensures n <= |s|
    ensures n == |s| || !IsSpace(s[n])
  {
    if s != [] && IsSpace(s[0]) then 1 + LeadingSpace(s[1..]) else 0
  }

  /** What `strip()` leaves: the infix of `s` after its leading whitespace,
      with only whitespace after it. */
  lemma {:induction false} StripInfix(s: string)
    decreases |s|
    ensures var i, r := LeadingSpace(s), Strip(s);
      i + |r| <= |s| && r == s[i..i + |r|] && AllSpace(s[..i]) && AllSpace(s[i + |r|..])
  {
    var r := Strip(s);
    if s != [] && IsSpace(s[0]) {
      StripInfixFront(s);
    } else if s != [] && IsSpace(s[|s| - 1]) {
      var t := s[..|s| - 1];
      StripInfix(t);
      assert LeadingSpace(t) == 0;
      assert s[|r|..] == t[|r|..] + [s[|s| - 1]];
      assert r == s[..|r|];
    } else {
      assert s[..0] == [] && s[|s|..] == [] && s[0..|s|] == s;
    }
  }

  lemma {:induction false} StripInfixFront(s: string)
    requires s != [] && IsSpace(s[0])
    decreases |s|, 0
    ensures var i, r := LeadingSpace(s), Strip(s);
      i + |r| <= |s| && r == s[i..i + |r|] && AllSpace(s[..i]) && AllSpace(s[i + |r|..])
  {
    var r := Strip(s);
    var t := s[1..];
    StripInfix(t);
    var j := LeadingSpace(t);
    assert s[..j + 1] == [s[0]] + t[..j];
    assert s[j + 1 + |r|..] == t[j + |r|..];
    assert r == s[j + 1..j + 1 + |r|];
  }

  /** `strip()` leaves no whitespace at either end. */
  lemma {:induction false} StripEnds(s: string)
    decreases |s|
    ensures Strip(s) == [] || (!IsSpace(Strip(s)[0]) && !IsSpace(Strip(s)[|Strip(s)| - 1]))
  {
    if s != [] && IsSpace(s[0]) {
      StripEnds(s[1..]);
    } else if s != [] && IsSpace(s[|s| - 1]) {
      StripEnds(s[..|s| - 1]);
    }
  }

  /** Length of the leading run of non-whitespace characters. */
  function TokenLength(s: string): (n: nat)
    ensures n <= |s|
    ensures forall i :: 0 <= i < n ==> !IsSpace(s[i])
    ensures n == |s| || IsSpace(s[n])
  {
    if s != [] && !IsSpace(s[0]) then 1 + TokenLength(s[1..]) else 0
  }

  /** `s.split()`: the maximal runs of non-whitespace characters, in order. */
  function Split(s: string): seq<string>
    decreases |s|
  {
    if s == [] then []
    else if IsSpace(s[0]) then Split(s[1..])
    else [s[..TokenLength(s)]] + Split(s[TokenLength(s)..])
  }

  /** Every field `split()` returns is a token, and there are none exactly
      when the string is all whitespace. */
  lemma {:induction false} SplitTokens(s: string)
    decreases |s|
    ensures forall k :: 0 <= k < |Split(s)| ==> IsToken(Split(s)[k])
    ensures Split(s) == [] <==> AllSpace(s)
  {
    if s == [] {
    } else if IsSpace(s[0]) {
      SplitTokens(s[1..]);
      if AllSpace(s[1..]) {
        forall i | 0 <= i < |s| ensures IsSpace(s[i]) {
          if i > 0 { assert s[i] == s[1..][i - 1]; }
        }
      }
    } else {
      var n := TokenLength(s);
      SplitTokens(s[n..]);
      assert IsToken(s[..n]);
      var r := [s[..n]] + Split(s[n..]);
      forall k | 0 <= k < |r| ensures IsToken(r[k]) {
        if k > 0 { assert r[k] == Split(s[n..])[k - 1]; }
      }
    }
  }

  /** Leading whitespace does not change `split()`. */
  lemma {:induction false} SplitAfterSpace(s: string, i: nat)
    requires i <= |s| && AllSpace(s[..i])
    decreases i
    ensures Split(s) == Split(s[i..])
  {
    if i > 0 {
      assert IsSpace(s[..i][0]);
      var t := s[1..];
      assert t[..i - 1] == s[..i][1..];
      assert t[i - 1..] == s[i..];
      SplitAfterSpace(t, i - 1);
    }
  }

  /** The first field of `split()` is the run of non-whitespace characters
      that starts at the first non-whitespace character `s[i]`. */
  lemma SplitHead(s: string, i: nat)
    requires i < |s| && AllSpace(s[..i]) && !IsSpace(s[i])
    ensures Split(s) != [] && Split(s)[0] == s[i..i + TokenLength(s[i..])]
  {
    SplitAfterSpace(s, i);
    SplitFirst(s[i..]);
    assert s[i..][..TokenLength(s[i..])] == s[i..i + TokenLength(s[i..])];
  }

  lemma {:induction false} LeadingSpaceIsSpace(s: string)
    ensures AllSpace(s[..LeadingSpace(s)])
  {
    if s != [] && IsSpace(s[0]) {
      LeadingSpaceIsSpace(s[1..]);
      var n := LeadingSpace(s);
      var u := s[..n];
      forall k | 0 <= k < |u|
        ensures IsSpace(u[k])
      {
        if k > 0 {
          assert u[k] == s[1..][..n - 1][k - 1];
        }
      }
    }
  }

  lemma SplitFirst(t: string)
    requires t != [] && !IsSpace(t[0])
    ensures Split(t) != [] && Split(t)[0] == t[..TokenLength(t)]
  {
  }

  /** The tokens written out with one space between neighbours. */
  function Join(tokens: seq<string>): string
  {
    if |tokens| <= 1 then (if tokens == [] then "" else tokens[0])
    else tokens[0] + " " + Join(tokens[1..])
  }

  lemma {:induction false} SplitSkipsLeadingSpace(s: string)
    requires s != [] && IsSpace(s[0])
    ensures Split(s) == Split(s[1..])
  {
  }

  /** Splitting undoes joining: tokens separated by single spaces come back as they were. */
  lemma {:induction false} SplitJoin(tokens: seq<string>)
    requires forall k :: 0 <= k < |tokens| ==> IsToken(tokens[k])
    ensures Split(Join(tokens)) == tokens
  {
    if tokens == [] {
    } else {
      var t := tokens[0];
      var rest := if |tokens| == 1 then "" else " " + Join(tokens[1..]);
      var s := t + rest;
      assert Join(tokens) == s;
      assert IsSpace(' ');
      TokenLengthOfToken(t, rest);
      assert s[..|t|] == t;
      assert s[|t|..] == rest;
      if |tokens| == 1 {
        assert Split(rest) == [];
      } else {
        SplitSkipsLeadingSpace(rest);
        assert rest[1..] == Join(tokens[1..]);
        SplitJoin(tokens[1..]);
      }
      assert Split(s) == [t] + Split(rest);
      assert tokens == [t] + tokens[1..];
    }
  }

  /** A token followed by a run of whitespace is the first field, whatever
      the rest holds: with `SplitAfterSpace` and `SplitTokens` this fixes the
      fields of every string, however wide the gaps between them. */
  lemma SplitCons(t: string, w: string, rest: string)
    requires IsToken(t) && w != [] && AllSpace(w)
    ensures Split(t + w + rest) == [t] + Split(rest)
  {
    var s := t + w + rest;
    var after := w + rest;
    assert s == t + after;
    TokenLengthOfToken(t, after);
    assert s[..|t|] == t && s[|t|..] == after;
    assert after[..|w|] == w && after[|w|..] == rest;
    SplitAfterSpace(after, |w|);
  }

  /** A line of single-space-separated tokens and a line terminator splits
      back into the tokens. */
  lemma SplitLine(tokens: seq<string>)
    requires forall k :: 0 <= k < |tokens| ==> IsToken(tokens[k])
    ensures Split(Join(tokens) + "\n") == tokens
  {
    SplitTrailingSpace(Join(tokens), '\n');
    SplitJoin(tokens);
  }

  /** Whitespace at the end of a string adds no field to its `split()`. */
  lemma {:induction false} SplitTrailingSpace(s: string, c: char)
    requires IsSpace(c)
    decreases |s|
    ensures Split(s + [c]) == Split(s)
  {
    if s == [] {
      assert Split([c]) == Split([c][1..]);
    } else if IsSpace(s[0]) {
      assert (s + [c])[1..] == s[1..] + [c];
      SplitTrailingSpace(s[1..], c);
    } else {
      var n := TokenLength(s);
      TokenLengthAppend(s, [c]);
      assert (s + [c])[..n] == s[..n];
      assert (s + [c])[n..] == s[n..] + [c];
      SplitTrailingSpace(s[n..], c);
    }
  }

  /** A token that ends before `s` does, or at a whitespace start of `t`,
      has the same length in `s + t`. */
  lemma {:induction false} TokenLengthAppend(s: string, t: string)
    requires TokenLength(s) < |s| || t == [] || IsSpace(t[0])
    ensures TokenLength(s + t) == TokenLength(s)
  {
    if s == [] {
    } else if IsSpace(s[0]) {
    } else {
      assert (s + t)[1..] == s[1..] + t;
      TokenLengthAppend(s[1..], t);
    }
  }

  lemma {:induction false} TokenLengthOfToken(t: string, rest: string)
    requires IsToken(t)
    requires rest == [] || IsSpace(rest[0])
    ensures TokenLength(t + rest) == |t|
  {
    if |t| == 1 {
      assert (t + rest)[1..] == rest;
    } else {
      assert (t + rest)[1..] == t[1..] + rest;
      TokenLengthOfToken(t[1..], rest);
    }
  }
}
