/**
 * The line reader of src/graph.c: a text stream read line by line with `getline`, and
 * `__split_line`, which returns the numbers of the next line that is not a comment.
 */
module LineReader {
  import opened Wrappers
  import opened LineText

  /**
   * A line as `getline` returns it from a text file: at least one character, and the
   * first one is not NUL (so `strlen` is positive).
   */
  type Line = l: seq<char> | |l| > 0 && l[0] != NUL witness "\n"

  /** Lines whose first character is `#` or `%` are comments. */
  predicate IsComment(l: Line) {
    |l| > 0 && (l[0] == '#' || l[0] == '%')
  }

  /**
   * `table` holds, for every line, the numbers `__split_line` would return for it. The
   * quantifier only fires on a `LineValues` term, so a client that speaks of the table
   * alone does not unfold the parser.
   */
  ghost predicate Parsed(lines: seq<Line>, table: seq<seq<nat>>) {
    |table| == |lines| && forall k {:trigger LineValues(lines[k])} :: 0 <= k < |lines| ==> table[k] == LineValues(lines[k])
  }

  /**
   * An open input file: its lines, the numbers on each line, and the index of the next
   * line `getline` returns.
   */
  class LineStream {
    const lines: seq<Line>
    ghost const values: seq<seq<nat>>
    var pos: nat

    ghost predicate Valid()
      reads this
    {
      pos <= |lines| && Parsed(lines, values)
    }

    /** `fopen`: a stream positioned at the first line. */
    constructor (contents: seq<Line>)
      ensures Valid() && lines == contents && pos == 0
    {
      lines := contents;
      values := seq(|contents|, k requires 0 <= k < |contents| => LineValues(contents[k]));
      pos := 0;
    }

    /** `getline`: the next line in a fresh buffer, or None at end of input. */
    method GetLine() returns (r: Option<array<char>>)
      requires Valid()
      modifies this
      ensures Valid()
      ensures old(pos) < |lines| ==> r.Some? && fresh(r.value) && r.value[..] == lines[old(pos)] && pos == old(pos) + 1
      ensures old(pos) == |lines| ==> r.None? && pos == old(pos)
    {
      if pos == |lines| {
        return None;
      }
      var a := new char[|lines[pos]|];
      forall i | 0 <= i < a.Length {
        a[i] := lines[pos][i];
      }
      r := Some(a);
      pos := pos + 1;
    }
  }

  /** The index of the first line at or after `pos` that is not a comment. */
  function NextData(lines: seq<Line>, pos: nat): (r: Option<nat>)
    requires pos <= |lines|
    ensures r.Some? ==> pos <= r.value < |lines|
    decreases |lines| - pos
  {
    if pos == |lines| then None
    else if IsComment(lines[pos]) then NextData(lines, pos + 1)
    else Some(pos)
  }

  /**
   * The line reader skips exactly the comment lines: the line it returns is not a comment,
   * every line before it is one, and it finds none only when all remaining lines are comments.
   */
  lemma {:induction false} NextDataSkipsComments(lines: seq<Line>, pos: nat)
    requires pos <= |lines|
    ensures NextData(lines, pos).Some? ==>
      var k := NextData(lines, pos).value;
      !IsComment(lines[k]) && forall j :: pos <= j < k ==> IsComment(lines[j])
    ensures NextData(lines, pos).None? <==> forall j :: pos <= j < |lines| ==> IsComment(lines[j])
    decreases |lines| - pos
  {
    if pos < |lines| && IsComment(lines[pos]) {
      NextDataSkipsComments(lines, pos + 1);
    }
  }

  /** The C string that `__rstrip_line` leaves of a line. */
  function StrippedText(l: Line): (t: seq<char>)
    ensures |t| > 0
  {
    l[..KeptLength(l[..StrLen(l)])]
  }

  /** It is the C string left in the buffer once `__rstrip_line` has run. */
  lemma StrippedTextInBuffer(l: Line)
    ensures StrippedText(l) == Stripped(l)[..StrLen(Stripped(l))]
  {
  }

  /** The numbers `__split_line` returns for the data line `l`. */
  function LineValues(l: Line): (vs: seq<nat>)
    ensures |vs| == |Tokens(StrippedText(l))|
  {
    var t := StrippedText(l);
    ScanValues(t, 0, |Tokens(t)|)
  }

  /**
   * There is one number per space- or tab-separated token of the stripped line and, when
   * the tokens are digit strings, value i is the base-10 value of token i.
   */
  lemma LineValuesAreTokenValues(l: Line)
    ensures |LineValues(l)| == |Tokens(StrippedText(l))|
    ensures (forall t :: t in Tokens(StrippedText(l)) ==> AllDigits(t)) ==>
      LineValues(l) == TokenValues(Tokens(StrippedText(l)))
  {
    var t := StrippedText(l);
    assert t[0..] == t;
    if forall tok :: tok in Tokens(t) ==> AllDigits(tok) {
      ScanReadsTokens(t, 0);
    }
  }

  /**
   * The `do ... while` of `__split_line` (src/graph.c:62-70): read lines until one does not
   * start with `#` or `%`; None at end of input.
   */
  method SkipComments(fin: LineStream) returns (got: Option<array<char>>)
    requires fin.Valid()
    modifies fin
    ensures fin.Valid()
    ensures NextData(fin.lines, old(fin.pos)).None? ==> got.None?
    ensures NextData(fin.lines, old(fin.pos)).Some? ==>
      var k := NextData(fin.lines, old(fin.pos)).value;
      got.Some? && fresh(got.value) && got.value[..] == fin.lines[k] && fin.pos == k + 1
  {
    ghost var start := fin.pos;
    got := fin.GetLine();
    while got.Some? && (got.value[0] == '#' || got.value[0] == '%')
      invariant fin.Valid()
      invariant start <= fin.pos
      invariant forall j :: start <= j < fin.pos - 1 ==> IsComment(fin.lines[j])
      invariant got.Some? ==> start < fin.pos && got.value[..] == fin.lines[fin.pos - 1] && fresh(got.value)
      invariant got.None? ==> fin.pos == |fin.lines| && forall j :: start <= j < fin.pos ==> IsComment(fin.lines[j])
      decreases |fin.lines| - fin.pos + (if got.Some? then 1 else 0)
    {
      assert IsComment(fin.lines[fin.pos - 1]);
      got := fin.GetLine();
    }
    if got.None? {
      NoDataAtEnd(fin.lines, start);
    } else {
      DataAt(fin.lines, start, fin.pos - 1);
    }
  }

  /**
   * `__split_line` (src/graph.c:53-98): reads lines until one does not start with `#` or
   * `%`, stops the run at end of input, strips the line, counts its tokens and converts
   * each with strtoll.
   */
  method SplitLine(fin: LineStream) returns (r: Result<array<nat>, Error>)
    requires fin.Valid()
    modifies fin
    ensures fin.Valid()
    ensures NextData(fin.lines, old(fin.pos)).None? ==> r == Err(InputExhausted)
    ensures NextData(fin.lines, old(fin.pos)).Some? ==>
      var k := NextData(fin.lines, old(fin.pos)).value;
      r.Ok? && fresh(r.value) && r.value[..] == fin.values[k] && fin.pos == k + 1
  {
    var got := SkipComments(fin);
    if got.None? {
      return Err(InputExhausted);
    }
    var line := got.value;
    ghost var l := fin.lines[fin.pos - 1];
    RStripLine(line);
    StrippedTextInBuffer(l);
    var text := line[..StrLen(line[..])];
    var count := CountTokens(text);
    var arr := ParseValues(text, count);
    assert arr[..] == LineValues(l);
    return Ok(arr);
  }

  lemma NoDataAtEnd(lines: seq<Line>, pos: nat)
    requires pos <= |lines|
    requires forall j :: pos <= j < |lines| ==> IsComment(lines[j])
    ensures NextData(lines, pos).None?
    decreases |lines| - pos
  {
    if pos < |lines| {
      NoDataAtEnd(lines, pos + 1);
    }
  }

  lemma DataAt(lines: seq<Line>, pos: nat, k: nat)
    requires pos <= k < |lines| && !IsComment(lines[k])
    requires forall j :: pos <= j < k ==> IsComment(lines[j])
    ensures NextData(lines, pos) == Some(k)
    decreases k - pos
  {
    if pos < k {
      DataAt(lines, pos + 1, k);
    }
  }

  // ---------------------------------------------------------------------------
  // Reading several data lines

  /** The outcome of reading several data lines: the indices of those lines and the next position. */
  datatype Read = Read(at: seq<nat>, next: nat) | Exhausted

  /**
   * Where the next `count` data lines from `pos` are, and the position after the last of
   * them; Exhausted if the input ends first.
   */
  function DataLines(lines: seq<Line>, pos: nat, count: nat): (r: Read)
    requires pos <= |lines|
    ensures r.Read? ==> |r.at| == count && pos <= r.next <= |lines|
    decreases count
  {
    if count == 0 then Read([], pos)
    else
      var prev := DataLines(lines, pos, count - 1);
      if prev.Exhausted? then Exhausted
      else match NextData(lines, prev.next)
        case None => Exhausted
        case Some(k) => Read(prev.at + [k], k + 1)
  }

  /** The numbers of line `k` in a table of per-line numbers (none past the end). */
  function Row(table: seq<seq<nat>>, k: nat): seq<nat> {
    if k < |table| then table[k] else []
  }

  /** The rows of numbers on the lines with the given indices. */
  function Rows(table: seq<seq<nat>>, at: seq<nat>): (rows: seq<seq<nat>>)
    ensures |rows| == |at| && forall i :: 0 <= i < |at| ==> rows[i] == Row(table, at[i])
  {
    seq(|at|, i requires 0 <= i < |at| => Row(table, at[i]))
  }

  /** Reading `a` data lines and then `b` more is reading `a + b`; it fails if the second part does. */
  lemma {:induction false} DataLinesAppend(lines: seq<Line>, pos: nat, a: nat, b: nat)
    requires pos <= |lines|
    requires DataLines(lines, pos, a).Read?
    ensures var r1 := DataLines(lines, pos, a);
            var r2 := DataLines(lines, r1.next, b);
            DataLines(lines, pos, a + b) == if r2.Read? then Read(r1.at + r2.at, r2.next) else Exhausted
    decreases b
  {
    var r1 := DataLines(lines, pos, a);
    if b == 0 {
      assert r1.at + [] == r1.at;
    } else {
      DataLinesAppend(lines, pos, a, b - 1);
      assert a + b - 1 == a + (b - 1);
      var r3 := DataLines(lines, r1.next, b - 1);
      if r3.Read? {
        match NextData(lines, r3.next)
        case None =>
        case Some(k) =>
          assert r1.at + (r3.at + [k]) == (r1.at + r3.at) + [k];
      }
    }
  }

  // ---------------------------------------------------------------------------
  // Edge cases of the reader as written

  /** A blank line is not skipped: `strtok` sees "\n" as one token and strtoll reads 0 from it. */
  lemma BlankLineReadsZero()
    ensures LineValues("\n") == [0]
  {
    var l := "\n";
    assert StrLen(l) == 1;
    assert KeptLength(l[..1]) == 1;
    var t := StrippedText(l);
    assert t == "\n";
    assert TokenLen(t) == 1 by { assert TokenLen(t[1..]) == 0; }
    assert Tokens(t) == ["\n"] by { assert t[1..] == []; }
    assert SkipSpace(t, 0) == 1 by { assert SkipSpace(t, 1) == 1; }
    assert Strtoll(t, 0) == (0, 0);
  }

  /**
   * A line made only of whitespace keeps its first character through the strip. If that
   * character is a space or a tab the line yields no number; if it is \n, \r, \v or \f it
   * is a token of its own and `strtoll` reads 0 from it.
   */
  lemma WhitespaceLineValues(l: Line)
    requires forall i :: 0 <= i < StrLen(l) ==> IsSpace(l[i])
    ensures LineValues(l) == if IsDelim(l[0]) then [] else [0]
  {
    var n := StrLen(l);
    KeptLengthUnique(l[..n], 1);
    var t := StrippedText(l);
    assert t == [l[0]];
    assert t[1..] == [];
    if IsDelim(l[0]) {
      assert Tokens(t) == [];
    } else {
      assert TokenLen(t) == 1 by { assert TokenLen(t[1..]) == 0; }
      assert t[..1] == t;
      assert Tokens(t) == [t[..1]] + Tokens(t[1..]);
      assert SkipSpace(t, 0) == 1 by { assert SkipSpace(t, 1) == 1; }
      assert Strtoll(t, 0) == (0, 0);
    }
  }

  /** A CRLF blank line reads as the single number 0. */
  lemma CrLfLineReadsZero()
    ensures LineValues("\r\n") == [0]
  {
    var l := "\r\n";
    assert StrLen(l) == 2 by { assert StrLen(l[1..]) == 1 by { assert StrLen(l[1..][1..]) == 0; } }
    WhitespaceLineValues(l);
  }

  /** A line of blanks that is longer than one character strips to no token at all. */
  lemma WhitespaceLineReadsNothing()
    ensures LineValues("  \n") == []
  {
    var l := "  \n";
    assert StrLen(l) == 3 by { assert StrLen(l[1..]) == 2; assert StrLen(l[2..]) == 1; }
    assert KeptLength(l[..3]) == 1 by { assert l[..3][..2] == "  "; assert "  "[..1] == " "; }
    var t := StrippedText(l);
    assert t == " ";
    assert Tokens(t) == [] by { assert t[1..] == []; }
  }
}
