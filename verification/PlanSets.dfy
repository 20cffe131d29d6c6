/** A plan comment is scanned for a plan set first. What a plan that quotes one
    amounts to. */
module PlanSets {
  import opened Wrappers
  import opened Text
  import opened Fences
  import opened PlanComment
  import opened PlanRoundTrip

  /** No line of the plan opens a block of the plan-set kind. */
  predicate QuotesNoSet(body: string) {
    forall line | line in Split(body) :: OpenerLength(line, PLAN_SET_FENCE) == 0
  }

  /** The lines of a plan and the one that closes its fence, which closes whatever
      the plan leaves open. */
  function ClosedLines(body: string): seq<string> {
    Split(body) + [Ticks(FenceLength(body))]
  }

  /** These lines as the scan for sets sees them. */
  function SetMarks(body: string): seq<Mark> {
    Marks(ClosedLines(body), PLAN_SET_FENCE)
  }

  /** The last set among these lines, and what the reader makes of it. */
  function QuotedInner(body: string): Option<string> {
    InnerOf(ClosedLines(body), LastOf(Blocks(SetMarks(body), 0)))
  }

  function QuotedSet(body: string): Option<string> {
    match QuotedInner(body)
    case None => None
    case Some(inner) => Clean(inner)
  }

  /** The lines of a plan comment. */
  function LinesOf(body: string, opts: CommentOptions): seq<string> {
    CommentLines(body, Lead(opts), Ticks(FenceLength(body)), PLAN_FENCE, Trailer(opts))
  }

  lemma {:induction false} CopyReads(text: string, body: string, opts: CommentOptions)
    requires OneLine(opts.trigger) && '\r' !in body && IsCopyOf(text, body, PLAN_FENCE, opts)
    ensures Split(Normalize(text)) == LinesOf(body, opts)
  {
    PlainFences();
    CommentReads(body, PLAN_FENCE, opts);
    NormalizeIsIdentity(body);
  }

  lemma {:induction false} PlanFenceIsNoSet(n: nat)
    ensures OpenerLength(Ticks(n) + PLAN_FENCE, PLAN_SET_FENCE) == 0 == OpenerLength(Ticks(n), PLAN_SET_FENCE)
  {
  }

  /** Around these lines nothing opens a set. */
  lemma {:induction false} FrameOpensNothing(body: string, opts: CommentOptions, k: nat)
    requires OneLine(opts.trigger) && k < |LinesOf(body, opts)|
    ensures |LinesOf(body, opts)| == |ClosedLines(body)| + 7
    ensures 4 <= k < 4 + |ClosedLines(body)| ==> LinesOf(body, opts)[k] == ClosedLines(body)[k - 4]
    ensures k < 4 || k >= 4 + |ClosedLines(body)| ==> OpenerLength(LinesOf(body, opts)[k], PLAN_SET_FENCE) == 0
  {
    LeadIsOneLine(opts);
    TrailerIsOneLine(opts);
    PlanFenceIsNoSet(FenceLength(body));
    PartsOfThree([PLAN_COMMENT_MARKER, Lead(opts), "", Ticks(FenceLength(body)) + PLAN_FENCE], Split(body),
                 [Ticks(FenceLength(body)), "", Trailer(opts), ""], k);
    assert Run(PLAN_COMMENT_MARKER) == 0;
  }

  lemma {:induction false} MarkOfLine(lines: seq<string>, tag: string, k: nat)
    requires k < |lines|
    ensures Marks(lines, tag)[k] == MarkOf(lines[k], tag)
  {
    MapAt((line: string) => MarkOf(line, tag), lines, k);
  }

  /** How the scan for sets sees the lines of the comment. */
  lemma {:induction false} SetMark(body: string, opts: CommentOptions, k: nat)
    requires OneLine(opts.trigger) && k < |LinesOf(body, opts)|
    ensures |LinesOf(body, opts)| == |SetMarks(body)| + 7
    ensures 4 <= k < 4 + |SetMarks(body)| ==> Marks(LinesOf(body, opts), PLAN_SET_FENCE)[k] == SetMarks(body)[k - 4]
    ensures k < 4 || k >= 4 + |SetMarks(body)| ==> Marks(LinesOf(body, opts), PLAN_SET_FENCE)[k].opens == 0
  {
    FrameOpensNothing(body, opts, k);
    MarkOfLine(LinesOf(body, opts), PLAN_SET_FENCE, k);
    if 4 <= k < 4 + |ClosedLines(body)| {
      MarkOfLine(ClosedLines(body), PLAN_SET_FENCE, k - 4);
    }
  }

  lemma {:induction false} CommentSetMarks(body: string, opts: CommentOptions)
    requires OneLine(opts.trigger)
    ensures Framed(Marks(LinesOf(body, opts), PLAN_SET_FENCE), SetMarks(body))
  {
    SetMark(body, opts, 0);
    forall k | 0 <= k < |SetMarks(body)| + 7
      ensures 4 <= k < 4 + |SetMarks(body)| ==> Marks(LinesOf(body, opts), PLAN_SET_FENCE)[k] == SetMarks(body)[k - 4]
      ensures k < 4 || k >= 4 + |SetMarks(body)| ==> Marks(LinesOf(body, opts), PLAN_SET_FENCE)[k].opens == 0
    {
      SetMark(body, opts, k);
    }
  }

  /** Four marks before and three after `inner`, none of which opens anything. */
  ghost predicate Framed(ms: seq<Mark>, inner: seq<Mark>) {
    && |ms| == |inner| + 7
    && (forall k | 4 <= k < 4 + |inner| :: ms[k] == inner[k - 4])
    && (forall k | 0 <= k < |ms| && !(4 <= k < 4 + |inner|) :: ms[k].opens == 0)
  }

  /** A text whose lines are these, framed. */
  ghost predicate Holds(text: string, body: string) {
    && |Split(Normalize(text))| == |ClosedLines(body)| + 7
    && Split(Normalize(text))[4..4 + |ClosedLines(body)|] == ClosedLines(body)
    && Framed(Marks(Split(Normalize(text)), PLAN_SET_FENCE), SetMarks(body))
  }

  lemma {:induction false} LinesAreThere(body: string, opts: CommentOptions)
    requires OneLine(opts.trigger)
    ensures |LinesOf(body, opts)| == |ClosedLines(body)| + 7
    ensures LinesOf(body, opts)[4..4 + |ClosedLines(body)|] == ClosedLines(body)
  {
    FrameOpensNothing(body, opts, 0);
    forall k | 4 <= k < 4 + |ClosedLines(body)| ensures LinesOf(body, opts)[k] == ClosedLines(body)[k - 4] {
      FrameOpensNothing(body, opts, k);
    }
  }

  /** The comment of a plan, as posted or after a web edit. */
  lemma {:induction false} CommentHolds(text: string, body: string, opts: CommentOptions)
    requires OneLine(opts.trigger) && '\r' !in body && IsCopyOf(text, body, PLAN_FENCE, opts)
    ensures Holds(text, body)
  {
    CopyReads(text, body, opts);
    LinesAreThere(body, opts);
    CommentSetMarks(body, opts);
  }

  // ------------------------------------------------------------ the scan inside the frame

  /** The last line closes everything that is opened before it. */
  ghost predicate AllClosed(ms: seq<Mark>) {
    ms != [] && forall k | 0 <= k < |ms| :: ms[k].opens > 0 ==> k < |ms| - 1 && ms[k].opens <= ms[|ms| - 1].closes
  }

  lemma {:induction false} SetMarksAreClosed(body: string)
    ensures AllClosed(SetMarks(body))
    ensures QuotesNoSet(body) <==> forall m | m in SetMarks(body) :: m.opens == 0
  {
    var lines, n := ClosedLines(body), FenceLength(body);
    RunOfTicks(n, "");
    assert Ticks(n) + "" == Ticks(n);
    PlanFenceIsNoSet(n);
    forall k | 0 <= k < |lines| ensures SetMarks(body)[k] == MarkOf(lines[k], PLAN_SET_FENCE) {
      MarkOfLine(lines, PLAN_SET_FENCE, k);
    }
    assert forall k | 0 <= k < |lines| - 1 :: lines[k] == Split(body)[k];
    if !QuotesNoSet(body) {
      var k :| 0 <= k < |Split(body)| && OpenerLength(Split(body)[k], PLAN_SET_FENCE) > 0;
      assert SetMarks(body)[k] in SetMarks(body);
    }
  }

  function Shifted(rs: seq<Range>, n: nat): (shifted: seq<Range>)
    ensures |shifted| == |rs|
    ensures forall i | 0 <= i < |rs| :: shifted[i] == Range(rs[i].open + n, rs[i].close + n)
  {
    seq(|rs|, i requires 0 <= i < |rs| => Range(rs[i].open + n, rs[i].close + n))
  }

  lemma {:induction false} ShiftedFirst(r: Range, rs: seq<Range>, n: nat)
    ensures Shifted([r] + rs, n) == [Range(r.open + n, r.close + n)] + Shifted(rs, n)
  {
  }

  lemma {:induction false} CloserInFrame(ms: seq<Mark>, inner: seq<Mark>, i: nat)
    requires Framed(ms, inner) && AllClosed(inner) && i < |inner| && inner[i].opens > 0
    ensures FirstCloser(inner, i + 1, inner[i].opens) < |inner|
    ensures FirstCloser(ms, i + 5, inner[i].opens) == FirstCloser(inner, i + 1, inner[i].opens) + 4
  {
    var c := FirstCloser(inner, i + 1, inner[i].opens);
    assert inner[|inner| - 1].closes >= inner[i].opens;
    forall k | i + 5 <= k < c + 4 ensures ms[k].closes < inner[i].opens {
      assert ms[k] == inner[k - 4];
    }
    assert ms[c + 4] == inner[c];
    FirstCloserIsUnique(ms, i + 5, inner[i].opens, c + 4);
  }

  lemma {:induction false} OneBlockInFrame(ms: seq<Mark>, inner: seq<Mark>, i: nat, c: nat, i': nat, c': nat)
    requires i < c < |inner| && i' == i + 4 && c' == c + 4 < |ms| && ms[i'] == inner[i] && inner[i].opens > 0
    requires FirstCloser(inner, i + 1, inner[i].opens) == c && FirstCloser(ms, i' + 1, inner[i].opens) == c'
    requires Blocks(ms, c' + 1) == Shifted(Blocks(inner, c + 1), 4)
    ensures Blocks(ms, i') == Shifted(Blocks(inner, i), 4)
  {
    BlocksAt(ms, i', c');
    BlocksAt(inner, i, c);
    ShiftedFirst(Range(i, c), Blocks(inner, c + 1), 4);
  }

  lemma {:induction false} NoBlockInFrame(ms: seq<Mark>, inner: seq<Mark>, i: nat)
    requires i < |inner| && i + 4 < |ms| && ms[i + 4] == inner[i] && inner[i].opens == 0
    requires Blocks(ms, i + 5) == Shifted(Blocks(inner, i + 1), 4)
    ensures Blocks(ms, i + 4) == Shifted(Blocks(inner, i), 4)
  {
    NoOpenerNoBlock(ms, i + 4, i + 5);
    NoOpenerNoBlock(inner, i, i + 1);
  }

  /** The scan from line `i` finds in the frame what it finds without. */
  ghost predicate AlikeFrom(ms: seq<Mark>, inner: seq<Mark>, i: nat) {
    i <= |inner| && i + 4 <= |ms| && Blocks(ms, i + 4) == Shifted(Blocks(inner, i), 4)
  }

  /** From the end to the start. */
  lemma {:induction false} BlocksInFrame(ms: seq<Mark>, inner: seq<Mark>)
    requires Framed(ms, inner) && AllClosed(inner)
    ensures AlikeFrom(ms, inner, 0)
  {
    NoOpenerNoBlock(ms, |inner| + 4, |ms|);
    var i: nat := |inner|;
    while i > 0
      invariant i <= |inner| && forall j | i <= j <= |inner| :: AlikeFrom(ms, inner, j)
    {
      i := i - 1;
      OneLineInFrame(ms, inner, i);
    }
  }

  lemma {:induction false} OneLineInFrame(ms: seq<Mark>, inner: seq<Mark>, i: nat)
    requires Framed(ms, inner) && AllClosed(inner) && i < |inner|
    requires forall j | i < j <= |inner| :: AlikeFrom(ms, inner, j)
    ensures AlikeFrom(ms, inner, i)
  {
    assert ms[i + 4] == inner[i];
    if inner[i].opens > 0 {
      var c := FirstCloser(inner, i + 1, inner[i].opens);
      CloserInFrame(ms, inner, i);
      assert AlikeFrom(ms, inner, c + 1);
      OneBlockInFrame(ms, inner, i, c, i + 4, c + 4);
    } else {
      assert AlikeFrom(ms, inner, i + 1);
      NoBlockInFrame(ms, inner, i);
    }
  }

  /** Whatever is opened is found. */
  lemma {:induction false} OpenedIsFound(ms: seq<Mark>)
    requires AllClosed(ms) && forall k | 0 <= k < |ms| :: ms[k].opens == 0 || ms[k].closes == 0
    ensures Blocks(ms, 0) == [] <==> forall m | m in ms :: m.opens == 0
  {
    if forall m | m in ms :: m.opens == 0 {
      NoOpenerNoBlock(ms, 0, |ms|);
    } else {
      var k :| 0 <= k < |ms| && ms[k].opens > 0;
      assert ms[|ms| - 1].closes >= ms[k].opens;
      assert IsBlock(ms, Range(k, FirstCloser(ms, k + 1, ms[k].opens)));
      BlocksCover(ms, 0, Range(k, FirstCloser(ms, k + 1, ms[k].opens)));
    }
  }

  lemma {:induction false} SameSlice(ls: seq<string>, body: seq<string>, n: nat, r: Range)
    requires r.open < r.close < |body| && n + |body| <= |ls| && ls[n..n + |body|] == body
    ensures Slice(ls, Range(r.open + n, r.close + n)) == Slice(body, r)
  {
    forall k | r.open + 1 <= k < r.close ensures ls[k + n] == body[k] {
      assert ls[k + n] == ls[n..n + |body|][k];
    }
    assert ls[r.open + n + 1..r.close + n] == body[r.open + 1..r.close];
  }

  lemma {:induction false} LastInFrame(ms: seq<Mark>, inner: seq<Mark>)
    requires Framed(ms, inner) && AllClosed(inner)
    ensures LastOf(Blocks(inner, 0)).None? ==> LastOf(Blocks(ms, 0)).None?
    ensures LastOf(Blocks(inner, 0)).Some? ==>
              && LastOf(Blocks(inner, 0)).value.open < LastOf(Blocks(inner, 0)).value.close < |inner|
              && LastOf(Blocks(ms, 0))
                   == Some(Range(LastOf(Blocks(inner, 0)).value.open + 4, LastOf(Blocks(inner, 0)).value.close + 4))
  {
    NoOpenerNoBlock(ms, 0, 4);
    BlocksInFrame(ms, inner);
    LastIsBlock(inner);
  }

  lemma {:induction false} LastIsBlock(ms: seq<Mark>)
    ensures LastOf(Blocks(ms, 0)).Some? ==> IsBlock(ms, LastOf(Blocks(ms, 0)).value)
  {
    BlocksFit(ms, 0);
    if LastOf(Blocks(ms, 0)).Some? {
      assert LastOf(Blocks(ms, 0)).value in Blocks(ms, 0);
    }
  }

  /** A plan has a set exactly if some line of it opens one, closed or not. */
  lemma {:induction false} SetIffOpened(body: string)
    ensures QuotedInner(body).Some? <==> !QuotesNoSet(body)
    ensures QuotesNoSet(body) ==> QuotedSet(body).None?
  {
    SetMarksAreClosed(body);
    PlainFences();
    MarksExclude(ClosedLines(body), PLAN_SET_FENCE);
    OpenedIsFound(SetMarks(body));
    LastIsBlock(SetMarks(body));
  }

  lemma {:induction false} InnerInFrame(lines: seq<string>, closed: seq<string>, r: Option<Range>)
    requires |lines| == |closed| + 7 && lines[4..4 + |closed|] == closed
    requires r.Some? ==> r.value.open < r.value.close < |closed|
    ensures r.Some? ==> InnerOf(lines, Some(Range(r.value.open + 4, r.value.close + 4))) == InnerOf(closed, r)
  {
    if r.Some? {
      SameSlice(lines, closed, 4, r.value);
    }
  }

  lemma {:induction false} FoundInFrame(lines: seq<string>, closed: seq<string>, ms: seq<Mark>, inner: seq<Mark>)
    requires |lines| == |closed| + 7 && lines[4..4 + |closed|] == closed && |inner| == |closed|
    requires Framed(ms, inner) && AllClosed(inner)
    ensures InnerOf(lines, LastOf(Blocks(ms, 0))) == InnerOf(closed, LastOf(Blocks(inner, 0)))
  {
    LastInFrame(ms, inner);
    LastIsBlock(inner);
    InnerInFrame(lines, closed, LastOf(Blocks(inner, 0)));
  }

  /** In the comment of a plan the scan finds the set the plan quotes, although it
      lies inside the plan's own fence; and it finds one exactly if some line of the
      plan opens one. */
  lemma {:induction false} QuotedSetIsFound(text: string, body: string)
    requires Holds(text, body)
    ensures FencedInner(text, PLAN_SET_FENCE) == QuotedInner(body)
    ensures FencedInner(text, PLAN_SET_FENCE).Some? <==> !QuotesNoSet(body)
    ensures FencedBody(text, PLAN_SET_FENCE) == QuotedSet(body)
  {
    SetIffOpened(body);
    SetMarksAreClosed(body);
    var lines := Split(Normalize(text));
    FoundInFrame(lines, ClosedLines(body), Marks(lines, PLAN_SET_FENCE), SetMarks(body));
  }

  /** A plan that opens no set leaves none to be found. */
  lemma {:induction false} NoSetIsFound(text: string, body: string)
    requires Holds(text, body) && QuotesNoSet(body)
    ensures FencedBody(text, PLAN_SET_FENCE) == None
  {
    QuotedSetIsFound(text, body);
  }

  const QUOTING := "x" + "\n" + ("```junco-plan" + "\n" + "y")
  const QUOTING_LINES := ["x", "```junco-plan", "y"]

  lemma {:induction false} ThreeLines(a: string, b: string, c: string)
    requires OneLine(a) && OneLine(b) && OneLine(c)
    ensures Split(a + "\n" + (b + "\n" + c)) == [a, b, c]
  {
    SplitLines(a, b + "\n" + c);
    SplitLines(b, c);
    SplitOneLine(a);
    SplitOneLine(b);
    SplitOneLine(c);
  }

  lemma {:induction false} RunOfThree(a: string, b: string, c: string)
    ensures LongestRun([a, b, c]) >= Run(b)
    ensures Run(a) <= Run(b) && Run(c) <= Run(b) ==> LongestRun([a, b, c]) == Run(b)
  {
    var ls := [a, b, c];
    LongestRunIsReached(ls);
    assert ls[1] == b;
  }

  lemma {:induction false} QuotingSplits()
    ensures Split(QUOTING) == QUOTING_LINES && FenceLength(QUOTING) == 4
  {
    var opener := "```junco-plan";
    ThreeLines("x", opener, "y");
    RunOfTicks(3, PLAN_SET_FENCE);
    assert Ticks(3) + PLAN_SET_FENCE == opener;
    RunOfThree("x", opener, "y");
  }

  lemma {:induction false} QuotingMarks()
    ensures MarkOf("x", PLAN_SET_FENCE) == MarkOf("y", PLAN_SET_FENCE) == QUIET
    ensures MarkOf("```junco-plan", PLAN_SET_FENCE) == Mark(3, 0)
    ensures MarkOf(Ticks(4), PLAN_SET_FENCE) == Mark(0, 4)
  {
    PlainFences();
    assert Ticks(3) + PLAN_SET_FENCE == "```junco-plan";
    FenceLine(3, PLAN_SET_FENCE);
    ClosingLine(4, PLAN_SET_FENCE);
  }

  lemma {:induction false} QuotingSetMarks()
    ensures SetMarks(QUOTING) == [QUIET, Mark(3, 0), QUIET, Mark(0, 4)]
  {
    QuotingSplits();
    QuotingMarks();
    MarkOfLine(ClosedLines(QUOTING), PLAN_SET_FENCE, 0);
    MarkOfLine(ClosedLines(QUOTING), PLAN_SET_FENCE, 1);
    MarkOfLine(ClosedLines(QUOTING), PLAN_SET_FENCE, 2);
    MarkOfLine(ClosedLines(QUOTING), PLAN_SET_FENCE, 3);
  }

  /** A plan of three lines, of which one opens a set and none closes it, is taken
      for a set. */
  lemma {:induction false} QuotedSetRuns(text: string)
    requires Holds(text, QUOTING)
    ensures FencedBody(text, PLAN_SET_FENCE) == Some("y")
  {
    QuotingSetMarks();
    WrapperIsFound(SetMarks(QUOTING), 1, 3);
    QuotedSetIsFound(text, QUOTING);
    QuotingSplits();
    assert ClosedLines(QUOTING)[2..3] == ["y"];
    CleanLetter('y');
  }
}
