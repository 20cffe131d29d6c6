/** Fenced blocks: a line that starts with N >= 3 backticks and a tag opens one,
    the first later line of at least N backticks and nothing else closes it. */
module Fences {
  import opened Text
  import opened Wrappers

  /** Length of the run of backticks a line starts with. */
  function Run(line: string): (n: nat)
    ensures n <= |line|
  {
    if line == "" || line[0] != '`' then 0 else 1 + Run(line[1..])
  }

  function Ticks(n: nat): (s: string)
    ensures |s| == n && forall i | 0 <= i < n :: s[i] == '`'
  {
    seq(n, _ => '`')
  }

  lemma {:induction false} RunOfTicks(n: nat, rest: string)
    requires rest == "" || rest[0] != '`'
    ensures Run(Ticks(n) + rest) == n
    ensures (Ticks(n) + rest)[n..] == rest
  {
    if n > 0 {
      RunOfTicks(n - 1, rest);
      assert (Ticks(n) + rest)[1..] == Ticks(n - 1) + rest;
    } else {
      assert Ticks(n) + rest == rest;
    }
  }

  /** Number of backticks if `line` opens a block of this tag, otherwise 0. */
  function OpenerLength(line: string, tag: string): (n: nat)
    ensures n > 0 ==> n == Run(line) >= 3
  {
    var n := Run(line);
    var rest := TrimStart(line[n..]);
    if n >= 3 && tag <= rest && AllSpace(rest[|tag|..]) then n else 0
  }

  /** Number of backticks if `line` holds backticks and then only white space,
      otherwise 0. Such a line closes every block opened with at most as many. */
  function CloserLength(line: string): (n: nat)
    ensures n > 0 ==> n == Run(line)
  {
    var n := Run(line);
    if AllSpace(line[n..]) then n else 0
  }

  /** What the scan needs to know of a line: how long a fence it opens, and how
      long a fence it can close. */
  datatype Mark = Mark(opens: nat, closes: nat)

  function MarkOf(line: string, tag: string): Mark {
    Mark(OpenerLength(line, tag), CloserLength(line))
  }

  function Marks(lines: seq<string>, tag: string): (ms: seq<Mark>)
    ensures |ms| == |lines|
  {
    Map((line: string) => MarkOf(line, tag), lines)
  }

  /** A closing line carries no tag, so no line both opens and closes. */
  lemma CloserOpensNothing(line: string, tag: string)
    requires tag != ""
    ensures CloserLength(line) > 0 ==> OpenerLength(line, tag) == 0
  {
  }

  /** Line numbers of the two delimiters. */
  datatype Range = Range(open: nat, close: nat)

  /** `r` is a complete block: its first line opens it, its last line is the
      FIRST later line that can close it. */
  ghost predicate IsBlock(ms: seq<Mark>, r: Range) {
    && r.open < r.close < |ms|
    && 0 < ms[r.open].opens <= ms[r.close].closes
    && forall j | r.open < j < r.close :: ms[j].closes < ms[r.open].opens
  }

  /** Some complete block starts at line `i` or later. */
  ghost predicate BlockFrom(ms: seq<Mark>, i: nat) {
    exists r: Range :: r.open >= i && IsBlock(ms, r)
  }

  function FirstCloser(ms: seq<Mark>, from: nat, n: nat): (j: nat)
    requires from <= |ms|
    ensures from <= j <= |ms|
    ensures forall k | from <= k < j :: ms[k].closes < n
    ensures j < |ms| ==> ms[j].closes >= n
    decreases |ms| - from
  {
    if from == |ms| || ms[from].closes >= n then from else FirstCloser(ms, from + 1, n)
  }

  /** The complete blocks from line `i` on, in document order; a block hides
      whatever it contains. */
  function Blocks(ms: seq<Mark>, i: nat): (rs: seq<Range>)
    requires i <= |ms|
    decreases |ms| - i
  {
    if i == |ms| then []
    else
      var close := FirstCloser(ms, i + 1, ms[i].opens);
      if ms[i].opens > 0 && close < |ms| then [Range(i, close)] + Blocks(ms, close + 1)
      else Blocks(ms, i + 1)
  }

  function LastOf<T>(s: seq<T>): Option<T> {
    if s == [] then None else Some(s[|s| - 1])
  }

  /** The first line of `b` lies inside one of the blocks found. */
  ghost predicate Covered(rs: seq<Range>, b: Range) {
    exists k | 0 <= k < |rs| :: rs[k].open <= b.open < rs[k].close
  }

  /** Ranges that follow one another. */
  predicate Ascending(rs: seq<Range>) {
    forall k, l | 0 <= k < l < |rs| :: rs[k].close < rs[l].open
  }

  /** Every block found is complete, and the blocks follow one another. */
  lemma BlocksAreComplete(ms: seq<Mark>, i: nat)
    requires i <= |ms|
    ensures forall r | r in Blocks(ms, i) :: r.open >= i && IsBlock(ms, r)
    ensures Ascending(Blocks(ms, i))
  {
    BlocksFit(ms, i);
    BlocksFollow(ms, i);
  }

  lemma {:induction false} BlocksFit(ms: seq<Mark>, i: nat)
    requires i <= |ms|
    ensures forall r | r in Blocks(ms, i) :: r.open >= i && IsBlock(ms, r)
    decreases |ms| - i
  {
    if i < |ms| {
      var close := FirstCloser(ms, i + 1, ms[i].opens);
      if ms[i].opens > 0 && close < |ms| {
        BlocksFit(ms, close + 1);
        assert IsBlock(ms, Range(i, close));
      } else {
        BlocksFit(ms, i + 1);
      }
    }
  }

  /** The shape of the scan at one line. */
  lemma {:induction false} BlocksAt(ms: seq<Mark>, i: nat, close: nat)
    requires i < |ms| && close == FirstCloser(ms, i + 1, ms[i].opens)
    ensures ms[i].opens > 0 && close < |ms| ==> Blocks(ms, i) == [Range(i, close)] + Blocks(ms, close + 1)
    ensures !(ms[i].opens > 0 && close < |ms|) ==> Blocks(ms, i) == Blocks(ms, i + 1)
  {
  }

  lemma {:induction false} BlocksStart(ms: seq<Mark>, i: nat)
    requires i <= |ms|
    ensures forall r | r in Blocks(ms, i) :: r.open >= i
  {
    BlocksFit(ms, i);
  }

  lemma {:induction false} BlocksFollow(ms: seq<Mark>, i: nat)
    requires i <= |ms|
    ensures Ascending(Blocks(ms, i))
    decreases |ms| - i
  {
    if i < |ms| {
      var close := FirstCloser(ms, i + 1, ms[i].opens);
      BlocksAt(ms, i, close);
      if ms[i].opens > 0 && close < |ms| {
        BlocksFollow(ms, close + 1);
        BlocksStart(ms, close + 1);
        FirstComesFirst(Range(i, close), Blocks(ms, close + 1));
      } else {
        BlocksFollow(ms, i + 1);
      }
    }
  }

  lemma FirstComesFirst(r: Range, rs: seq<Range>)
    requires Ascending(rs) && forall q | q in rs :: q.open > r.close
    ensures Ascending([r] + rs)
  {
  }

  /** No complete block escapes: it is one of those found, or starts inside one. */
  lemma {:induction false} BlocksCover(ms: seq<Mark>, i: nat, b: Range)
    requires forall k | 0 <= k < |ms| :: ms[k].opens == 0 || ms[k].closes == 0
    requires i <= b.open && IsBlock(ms, b)
    ensures Covered(Blocks(ms, i), b)
    decreases |ms| - i
  {
    var rs := Blocks(ms, i);
    var n := ms[i].opens;
    var close := FirstCloser(ms, i + 1, n);
    if n > 0 && close < |ms| {
      if b.open < close {
        assert rs[0].open <= b.open < rs[0].close;
      } else {
        BlocksCover(ms, close + 1, b);
        var k :| 0 <= k < |rs[1..]| && rs[1..][k].open <= b.open < rs[1..][k].close;
        assert rs[k + 1].open <= b.open < rs[k + 1].close;
      }
    } else {
      BlocksCover(ms, i + 1, b);
    }
  }

  lemma {:induction false} LastBlockIsLast(ms: seq<Mark>)
    requires forall k | 0 <= k < |ms| :: ms[k].opens == 0 || ms[k].closes == 0
    ensures var last := LastOf(Blocks(ms, 0));
            last.Some? ==> IsBlock(ms, last.value) && !BlockFrom(ms, last.value.close)
    ensures LastOf(Blocks(ms, 0)).None? <==> !BlockFrom(ms, 0)
  {
    var rs := Blocks(ms, 0);
    BlocksAreComplete(ms, 0);
    if rs != [] {
      var last := rs[|rs| - 1];
      assert IsBlock(ms, last);
      assert forall k | 0 <= k < |rs| :: rs[k].close <= last.close;
    }
    forall b: Range | IsBlock(ms, b) ensures rs != [] && b.open < rs[|rs| - 1].close {
      BlocksCover(ms, 0, b);
    }
  }

  /** Longest run of backticks at the start of any line. */
  method LongestBacktickRun(text: string) returns (max: nat)
    ensures max == LongestRun(Split(text))
    ensures forall i | 0 <= i < |Split(text)| :: Run(Split(text)[i]) <= max
    ensures max == 0 || exists i | 0 <= i < |Split(text)| :: Run(Split(text)[i]) == max
  {
    var lines := Split(text);
    max := 0;
    for i := 0 to |lines|
      invariant max == LongestRun(lines[..i])
    {
      assert lines[..i + 1][..i] == lines[..i];
      var m := Run(lines[i]);
      if m > max {
        max := m;
      }
    }
    assert lines[..|lines|] == lines;
    LongestRunIsReached(lines);
  }

  lemma {:induction false} LongestRunIsReached(lines: seq<string>)
    ensures LongestRun(lines) == 0 || exists i | 0 <= i < |lines| :: Run(lines[i]) == LongestRun(lines)
  {
    if LongestRun(lines) > 0 {
      var n := |lines| - 1;
      if Run(lines[n]) != LongestRun(lines) {
        LongestRunIsReached(lines[..n]);
        var i :| 0 <= i < n && Run(lines[..n][i]) == LongestRun(lines);
        assert lines[i] == lines[..n][i];
      }
    }
  }

  function LongestRun(lines: seq<string>): (max: nat)
    ensures forall i | 0 <= i < |lines| :: Run(lines[i]) <= max
  {
    if lines == [] then 0
    else
      var m, k := LongestRun(lines[..|lines| - 1]), Run(lines[|lines| - 1]);
      if k > m then k else m
  }

  /** The inner loop: the first line at or after `from` that closes `n` backticks. */
  method FindCloser(ms: seq<Mark>, from: nat, n: nat) returns (close: int)
    requires from <= |ms|
    ensures close == if FirstCloser(ms, from, n) < |ms| then FirstCloser(ms, from, n) else -1
  {
    close := -1;
    var j := from;
    while j < |ms|
      invariant from <= j <= |ms| && close == -1
      invariant FirstCloser(ms, from, n) == FirstCloser(ms, j, n)
    {
      if ms[j].closes >= n {
        close := j;
        break;
      }
      j := j + 1;
    }
  }

  /** The last of some ranges and, failing that, what was last before. */
  function LastOr(rs: seq<Range>, last: Option<Range>): Option<Range> {
    if rs == [] then last else LastOf(rs)
  }

  lemma LastBlockStep(ms: seq<Mark>, i: nat, last: Option<Range>)
    requires i < |ms|
    ensures LastOr(Blocks(ms, i), last)
         == if ms[i].opens > 0 && FirstCloser(ms, i + 1, ms[i].opens) < |ms|
            then LastOr(Blocks(ms, FirstCloser(ms, i + 1, ms[i].opens) + 1),
                        Some(Range(i, FirstCloser(ms, i + 1, ms[i].opens))))
            else LastOr(Blocks(ms, i + 1), last)
  {
  }

  /** The scan itself, over lines already matched against the two patterns. */
  method LastBlock(ms: seq<Mark>) returns (last: Option<Range>)
    ensures last == LastOf(Blocks(ms, 0))
  {
    last := None;
    var i := 0;
    while i < |ms|
      invariant 0 <= i <= |ms|
      invariant LastOf(Blocks(ms, 0)) == LastOr(Blocks(ms, i), last)
    {
      LastBlockStep(ms, i, last);
      var n := ms[i].opens;
      if n > 0 {
        var close := FindCloser(ms, i + 1, n);
        if close != -1 {
          last := Some(Range(i, close));
          i := close;
        }
      }
      i := i + 1;
    }
  }

  /** The LAST complete block of this tag. None means that no opening line of
      this tag has a closing line anywhere after it. */
  method LastFencedBlockRange(lines: seq<string>, tag: string) returns (last: Option<Range>)
    requires tag != ""
    ensures last == LastOf(Blocks(Marks(lines, tag), 0))
    ensures last.Some? ==> last.value.open < last.value.close < |lines|
    ensures last.Some? ==> IsBlock(Marks(lines, tag), last.value)
                           && !BlockFrom(Marks(lines, tag), last.value.close)
    ensures last.None? <==> !BlockFrom(Marks(lines, tag), 0)
  {
    last := LastBlock(Marks(lines, tag));
    MarksExclude(lines, tag);
    LastBlockIsLast(Marks(lines, tag));
  }

  lemma MarksExclude(lines: seq<string>, tag: string)
    requires tag != ""
    ensures forall k | 0 <= k < |lines| ::
              Marks(lines, tag)[k].opens == 0 || Marks(lines, tag)[k].closes == 0
  {
    forall k | 0 <= k < |lines|
      ensures Marks(lines, tag)[k].opens == 0 || Marks(lines, tag)[k].closes == 0
    {
      CloserOpensNothing(lines[k], tag);
      MapAt((line: string) => MarkOf(line, tag), lines, k);
    }
  }
}
