/** What is printed into a plan comment is exactly what is read back. */
module PlanRoundTrip {
  import opened Text
  import opened Wrappers
  import opened Fences
  import opened PlanComment

  /** A fence tag as the program uses them: no white space, no backtick. */
  predicate PlainTag(tag: string) {
    && tag != "" && tag[0] != '`'
    && forall i | 0 <= i < |tag| :: !IsSpace(tag[i])
  }

  /** No line of the plan, once line endings are normalized, could close the
      fence that is put around it. */
  predicate NothingClosesEarly(body: string) {
    NoneCloses(Split(Normalize(body)), FenceLength(body))
  }

  predicate NoneCloses(lines: seq<string>, n: nat) {
    forall i | 0 <= i < |lines| :: CloserLength(lines[i]) < n
  }

  // --------------------------------------------------- scanning, on marks only

  lemma {:induction false} NoOpenerNoBlock(ms: seq<Mark>, i: nat, j: nat)
    requires i <= j <= |ms| && forall k | i <= k < j :: ms[k].opens == 0
    ensures Blocks(ms, i) == Blocks(ms, j)
    decreases j - i
  {
    if i < j {
      NoOpenerNoBlock(ms, i + 1, j);
    }
  }

  lemma {:induction false} FirstCloserIsUnique(ms: seq<Mark>, from: nat, n: nat, j: nat)
    requires from <= j < |ms| && ms[j].closes >= n
    requires forall k | from <= k < j :: ms[k].closes < n
    ensures FirstCloser(ms, from, n) == j
    decreases j - from
  {
  }

  /** One opener at `a`, a closer for it at `c`, no opener outside [a, c]: the
      scanner reports exactly [a, c] if and only if nothing in between closes. */
  lemma {:induction false} WrapperIsFound(ms: seq<Mark>, a: nat, c: nat)
    requires a < c < |ms| && 0 < ms[a].opens <= ms[c].closes
    requires forall k | 0 <= k < a || c <= k < |ms| :: ms[k].opens == 0
    ensures LastOf(Blocks(ms, 0)) == Some(Range(a, c))
       <==> forall k | a < k < c :: ms[k].closes < ms[a].opens
  {
    NoOpenerNoBlock(ms, 0, a);
    var n := ms[a].opens;
    var close := FirstCloser(ms, a + 1, n);
    if forall k | a < k < c :: ms[k].closes < n {
      FirstCloserIsUnique(ms, a + 1, n, c);
      NoOpenerNoBlock(ms, c + 1, |ms|);
      assert Blocks(ms, 0) == [Range(a, c)];
    } else if LastOf(Blocks(ms, 0)) == Some(Range(a, c)) {
      BlocksAreComplete(ms, 0);
    }
  }

  lemma {:induction false} FenceStaysOpen(ms: seq<Mark>, a: nat, i: nat)
    requires a < i <= |ms| && FenceAt(ms, a) == 0 && ms[a].opens > 0
    requires forall k | a < k < i :: ms[k].closes < ms[a].opens
    ensures FenceAt(ms, i) == ms[a].opens
    decreases i
  {
    if a + 1 < i {
      FenceStaysOpen(ms, a, i - 1);
    }
  }

  lemma {:induction false} NoFenceOpens(ms: seq<Mark>, i: nat, j: nat)
    requires i <= j <= |ms| && FenceAt(ms, i) == 0
    requires forall k | i <= k < j :: ms[k].opens == 0
    ensures FenceAt(ms, j) == 0
    decreases j
  {
    if i < j {
      NoFenceOpens(ms, i, j - 1);
    }
  }

  lemma {:induction false} NoStartNoPair(ss: seq<Sign>, i: nat)
    requires i <= |ss| && forall k | i <= k < |ss| :: ss[k].start.None?
    ensures Pairs(ss, i) == []
    decreases |ss| - i
  {
    if i < |ss| {
      NoStartNoPair(ss, i + 1);
    }
  }

  // --------------------------------------------------- the lines of a comment

  lemma OneLineConcat(a: string, b: string)
    ensures OneLine(a + b) <==> OneLine(a) && OneLine(b)
  {
    if OneLine(a + b) {
      assert forall i | 0 <= i < |a| :: a[i] == (a + b)[i];
      assert forall i | 0 <= i < |b| :: b[i] == (a + b)[|a| + i];
    }
  }

  lemma LeadIsOneLine(opts: CommentOptions)
    requires OneLine(opts.trigger)
    ensures OneLine(Lead(opts)) && Run(Lead(opts)) == 0 && !("<!--" <= Lead(opts))
  {
    assert OneLine(PROPOSED);
    OneLineConcat(PROPOSED, Digits(opts.issue));
    if opts.requireApproval {
      ReviewIsOneLine(opts.trigger);
      OneLineConcat(PROPOSED + Digits(opts.issue),
                    REVIEW + opts.trigger + (APPROVED + EDIT_FIRST + EDITED_RUNS + RUNS));
    } else {
      NoApprovalIsOneLine();
      OneLineConcat(PROPOSED + Digits(opts.issue), NEXT_SWEEP + NO_APPROVAL + STILL_EDIT + BEFORE_THEN);
    }
  }

  lemma ReviewIsOneLine(trigger: string)
    requires OneLine(trigger)
    ensures OneLine(REVIEW + trigger + (APPROVED + EDIT_FIRST + EDITED_RUNS + RUNS))
  {
    assert OneLine(REVIEW) && OneLine(APPROVED) && OneLine(EDIT_FIRST) && OneLine(EDITED_RUNS) && OneLine(RUNS);
    OneLineConcat(REVIEW, trigger);
    OneLineConcat(APPROVED, EDIT_FIRST);
    OneLineConcat(APPROVED + EDIT_FIRST, EDITED_RUNS);
    OneLineConcat(APPROVED + EDIT_FIRST + EDITED_RUNS, RUNS);
    OneLineConcat(REVIEW + trigger, APPROVED + EDIT_FIRST + EDITED_RUNS + RUNS);
  }

  lemma NoApprovalIsOneLine()
    ensures OneLine(NEXT_SWEEP + NO_APPROVAL + STILL_EDIT + BEFORE_THEN)
  {
    assert OneLine(NEXT_SWEEP) && OneLine(NO_APPROVAL) && OneLine(STILL_EDIT) && OneLine(BEFORE_THEN);
    OneLineConcat(NEXT_SWEEP, NO_APPROVAL);
    OneLineConcat(NEXT_SWEEP + NO_APPROVAL, STILL_EDIT);
    OneLineConcat(NEXT_SWEEP + NO_APPROVAL + STILL_EDIT, BEFORE_THEN);
  }

  lemma TrailerIsOneLine(opts: CommentOptions)
    requires OneLine(opts.trigger)
    ensures OneLine(Trailer(opts)) && Run(Trailer(opts)) == 0 && !("<!--" <= Trailer(opts))
  {
    assert OneLine(REPLAN);
    assert OneLine(NEWER) && OneLine(SUPERSEDES);
    OneLineConcat(REPLAN, opts.trigger);
    OneLineConcat(NEWER, SUPERSEDES);
    OneLineConcat(REPLAN + opts.trigger, NEWER + SUPERSEDES);
  }

  function CommentLines(body: string, lead: string, fence: string, tag: string, trailer: string)
    : seq<string>
  {
    [PLAN_COMMENT_MARKER, lead, "", fence + tag] + Split(body) + [fence, "", trailer, ""]
  }

  lemma {:induction false} FourLines(a: string, b: string, c: string, d: string)
    requires OneLine(a) && OneLine(b) && OneLine(c) && OneLine(d)
    ensures Split(a + "\n" + (b + "\n" + (c + "\n" + d))) == [a, b, c, d]
  {
    SplitLines(a, b + "\n" + (c + "\n" + d));
    SplitLines(b, c + "\n" + d);
    SplitLines(c, d);
    SplitOneLine(a);
    SplitOneLine(b);
    SplitOneLine(c);
    SplitOneLine(d);
  }

  lemma {:induction false} BetweenSplits(h: string, body: string, t: string)
    ensures Split(h + "\n" + (body + "\n" + t)) == Split(h) + Split(body) + Split(t)
  {
    SplitLines(h, body + "\n" + t);
    SplitLines(body, t);
  }

  lemma {:induction false} BetweenNormalizes(h: string, body: string, t: string)
    requires '\r' !in h && '\r' !in t
    requires body == "" || body[|body| - 1] != '\r'
    ensures Normalize(h + "\n" + (body + "\n" + t)) == h + "\n" + (Normalize(body) + "\n" + t)
  {
    var before, after := h + "\n", "\n" + t;
    assert body + "\n" + t == body + after;
    assert Normalize(body) + "\n" + t == Normalize(body) + after;
    AroundNormalizes(before, body, after);
  }

  lemma {:induction false} AroundNormalizes(h: string, body: string, t: string)
    requires '\r' !in h && '\r' !in t
    requires body == "" || body[|body| - 1] != '\r'
    ensures Normalize(h + (body + t)) == h + (Normalize(body) + t)
  {
    NormalizeAppend(h, body + t);
    NormalizeAppend(body, t);
    NormalizeIsIdentity(h);
    NormalizeIsIdentity(t);
  }

  lemma {:induction false} CommentReads(body: string, tag: string, opts: CommentOptions)
    requires OneLine(opts.trigger) && PlainTag(tag)
    requires body == "" || body[|body| - 1] != '\r'
    ensures Split(Normalize(PlanCommentText(body, tag, opts)))
         == CommentLines(Normalize(body), Lead(opts), Ticks(FenceLength(body)), tag, Trailer(opts))
  {
    var lead, trailer, fence := Lead(opts), Trailer(opts), Ticks(FenceLength(body));
    var head, tail := Head(lead, fence, tag), Tail(fence, trailer);
    LeadIsOneLine(opts);
    TrailerIsOneLine(opts);
    TagIsOneLine(fence, tag);
    MarkerIsOneLine();
    FourLines(PLAN_COMMENT_MARKER, lead, "", fence + tag);
    FourLines(fence, "", trailer, "");
    NoReturnInLines(head);
    NoReturnInLines(tail);
    BetweenNormalizes(head, body, tail);
    BetweenSplits(head, Normalize(body), tail);
  }

  lemma MarkerIsOneLine()
    ensures OneLine(PLAN_COMMENT_MARKER)
  {
  }

  lemma TagIsOneLine(fence: string, tag: string)
    requires PlainTag(tag) && forall i | 0 <= i < |fence| :: fence[i] == '`'
    ensures OneLine(fence) && OneLine(fence + tag)
  {
  }

  lemma {:induction false} NoReturnInLines(s: string)
    requires forall i | 0 <= i < |Split(s)| :: OneLine(Split(s)[i])
    ensures '\r' !in s
  {
    if s != "" {
      var ls := Split(s[1..]);
      if s[0] == '\n' {
        assert Split(s)[1..] == ls;
        forall i | 0 <= i < |ls| ensures OneLine(ls[i]) {
          assert ls[i] == Split(s)[i + 1];
        }
      } else {
        assert Split(s)[0] == [s[0]] + ls[0] && OneLine(Split(s)[0]);
        assert ([s[0]] + ls[0])[0] == s[0] && ([s[0]] + ls[0])[1..] == ls[0];
        forall i | 0 <= i < |ls| ensures OneLine(ls[i]) {
          if i == 0 {
            OneLineConcat([s[0]], ls[0]);
          } else {
            assert ls[i] == Split(s)[i];
          }
        }
      }
      NoReturnInLines(s[1..]);
    }
  }

  // --------------------------------------------------- what the scanners see

  lemma FenceLine(n: nat, tag: string)
    requires n >= 3 && PlainTag(tag)
    ensures MarkOf(Ticks(n) + tag, tag) == FenceMark(Ticks(n) + tag) == Mark(n, 0)
  {
    RunOfTicks(n, tag);
    assert TrimStart(tag) == tag;
    assert !AllSpace(tag) by {
      assert !IsSpace(tag[0]);
    }
  }

  lemma ClosingLine(n: nat, tag: string)
    requires n >= 3 && PlainTag(tag)
    ensures MarkOf(Ticks(n), tag) == Mark(0, n) && FenceMark(Ticks(n)) == Mark(n, n)
  {
    RunOfTicks(n, "");
    assert Ticks(n) + "" == Ticks(n);
    assert TrimStart("") == "";
  }

  /** A line without a leading backtick opens and closes nothing. */
  lemma QuietLine(line: string, tag: string)
    requires Run(line) == 0
    ensures MarkOf(line, tag) == FenceMark(line) == QUIET
  {
  }

  lemma {:induction false} MarksOfFour(a: string, b: string, c: string, d: string, tag: string)
    ensures Marks([a, b, c, d], tag) == [MarkOf(a, tag), MarkOf(b, tag), MarkOf(c, tag), MarkOf(d, tag)]
  {
    MapOfFour((line: string) => MarkOf(line, tag), a, b, c, d);
  }

  lemma {:induction false} FenceMarksOfFour(a: string, b: string, c: string, d: string)
    ensures FenceMarks([a, b, c, d]) == [FenceMark(a), FenceMark(b), FenceMark(c), FenceMark(d)]
  {
    MapOfFour((line: string) => FenceMark(line), a, b, c, d);
  }

  lemma {:induction false} MarksOfParts(a: seq<string>, b: seq<string>, c: seq<string>, tag: string)
    ensures Marks(a + b + c, tag) == Marks(a, tag) + Marks(b, tag) + Marks(c, tag)
    ensures FenceMarks(a + b + c) == FenceMarks(a) + FenceMarks(b) + FenceMarks(c)
  {
    var f, g := (line: string) => MarkOf(line, tag), (line: string) => FenceMark(line);
    MapConcat(f, a + b, c);
    MapConcat(f, a, b);
    MapConcat(g, a + b, c);
    MapConcat(g, a, b);
  }

  const QUIET := Mark(0, 0)

  lemma {:induction false} EdgeMarks(m: string, lead: string, fence: string, tag: string, n: nat)
    requires MarkOf(m, tag) == MarkOf(lead, tag) == MarkOf("", tag) == QUIET
    requires MarkOf(fence + tag, tag) == Mark(n, 0) && MarkOf(fence, tag) == Mark(0, n)
    ensures Marks([m, lead, "", fence + tag], tag) == [QUIET, QUIET, QUIET, Mark(n, 0)]
    ensures Marks([fence, "", lead, ""], tag) == [Mark(0, n), QUIET, QUIET, QUIET]
  {
    MarksOfFour(m, lead, "", fence + tag, tag);
    MarksOfFour(fence, "", lead, "", tag);
  }

  lemma {:induction false} EdgeFenceMarks(m: string, lead: string, fence: string, tag: string, n: nat)
    requires FenceMark(m) == FenceMark(lead) == FenceMark("") == QUIET
    requires FenceMark(fence + tag) == Mark(n, 0) && FenceMark(fence) == Mark(n, n)
    ensures FenceMarks([m, lead, "", fence + tag]) == [QUIET, QUIET, QUIET, Mark(n, 0)]
    ensures FenceMarks([fence, "", lead, ""]) == [Mark(n, n), QUIET, QUIET, QUIET]
  {
    FenceMarksOfFour(m, lead, "", fence + tag);
    FenceMarksOfFour(fence, "", lead, "");
  }

  /** The lines around the plan, as the scanners see them. */
  ghost predicate EdgesAre(m: string, lead: string, fence: string, tag: string, trailer: string, n: nat) {
    && MarkOf(m, tag) == MarkOf(lead, tag) == MarkOf("", tag) == MarkOf(trailer, tag) == QUIET
    && FenceMark(m) == FenceMark(lead) == FenceMark("") == FenceMark(trailer) == QUIET
    && MarkOf(fence + tag, tag) == FenceMark(fence + tag) == Mark(n, 0)
    && MarkOf(fence, tag) == Mark(0, n) && FenceMark(fence) == Mark(n, n)
  }

  lemma {:induction false} CommentEdges(m: string, lead: string, n: nat, tag: string, trailer: string)
    requires n >= 3 && PlainTag(tag) && Run(m) == 0 && Run(lead) == 0 && Run(trailer) == 0
    ensures EdgesAre(m, lead, Ticks(n), tag, trailer, n)
  {
    FenceLine(n, tag);
    ClosingLine(n, tag);
    QuietLine(m, tag);
    QuietLine(lead, tag);
    QuietLine(trailer, tag);
    QuietLine("", tag);
  }

  /** Only the outer fence and the plan itself mean anything to the scanners. */
  lemma {:induction false} CommentMarks(nb: string, lead: string, n: nat, tag: string, trailer: string)
    requires n >= 3 && PlainTag(tag) && Run(lead) == 0 && Run(trailer) == 0
    ensures Marks(CommentLines(nb, lead, Ticks(n), tag, trailer), tag)
         == [QUIET, QUIET, QUIET, Mark(n, 0)] + Marks(Split(nb), tag) + [Mark(0, n), QUIET, QUIET, QUIET]
    ensures FenceMarks(CommentLines(nb, lead, Ticks(n), tag, trailer))
         == [QUIET, QUIET, QUIET, Mark(n, 0)] + FenceMarks(Split(nb)) + [Mark(n, n), QUIET, QUIET, QUIET]
  {
    CommentEdges(PLAN_COMMENT_MARKER, lead, n, tag, trailer);
    PartsMark(PLAN_COMMENT_MARKER, lead, Ticks(n), tag, Split(nb), trailer, n);
  }

  lemma {:induction false} PartsMark(m: string, lead: string, fence: string, tag: string,
                                     body: seq<string>, trailer: string, n: nat)
    requires EdgesAre(m, lead, fence, tag, trailer, n)
    ensures Marks([m, lead, "", fence + tag] + body + [fence, "", trailer, ""], tag)
         == [QUIET, QUIET, QUIET, Mark(n, 0)] + Marks(body, tag) + [Mark(0, n), QUIET, QUIET, QUIET]
    ensures FenceMarks([m, lead, "", fence + tag] + body + [fence, "", trailer, ""])
         == [QUIET, QUIET, QUIET, Mark(n, 0)] + FenceMarks(body) + [Mark(n, n), QUIET, QUIET, QUIET]
  {
    EdgeMarks(m, lead, fence, tag, n);
    EdgeMarks(m, trailer, fence, tag, n);
    EdgeFenceMarks(m, lead, fence, tag, n);
    EdgeFenceMarks(m, trailer, fence, tag, n);
    MarksOfParts([m, lead, "", fence + tag], body, [fence, "", trailer, ""], tag);
  }

  // --------------------------------------------------- the round trip

  /** `text` is the printed comment up to line endings: as printed, as saved by a
      web editor, or any mixture. */
  predicate IsCopyOf(text: string, body: string, tag: string, opts: CommentOptions) {
    Normalize(text) == Normalize(PlanCommentText(body, tag, opts))
  }

  lemma {:induction false} PartsOfThree<T>(a: seq<T>, b: seq<T>, c: seq<T>, k: nat)
    requires k < |a + b + c|
    ensures (a + b + c)[k] == if k < |a| then a[k]
                              else if k < |a| + |b| then b[k - |a|] else c[k - |a| - |b|]
  {
  }

  lemma {:induction false} LineCloses(lines: seq<string>, tag: string, k: nat)
    requires k < |lines|
    ensures Marks(lines, tag)[k].closes == FenceMarks(lines)[k].closes == CloserLength(lines[k])
  {
    MapAt((line: string) => MarkOf(line, tag), lines, k);
    MapAt((line: string) => FenceMark(line), lines, k);
  }

  lemma {:induction false} WrapperMarks(ls: seq<string>, n: nat, tag: string)
    requires n > 0
    ensures LastOf(Blocks([QUIET, QUIET, QUIET, Mark(n, 0)] + Marks(ls, tag) + [Mark(0, n), QUIET, QUIET, QUIET], 0))
              == Some(Range(3, |ls| + 4))
       <==> NoneCloses(ls, n)
  {
    var a, b, c := [QUIET, QUIET, QUIET, Mark(n, 0)], Marks(ls, tag), [Mark(0, n), QUIET, QUIET, QUIET];
    var ms := a + b + c;
    forall k | 0 <= k < |ms| && !(4 <= k < |ls| + 4)
      ensures ms[k] == if k < 4 then a[k] else c[k - |ls| - 4]
    {
      PartsOfThree(a, b, c, k);
    }
    forall k | 4 <= k < |ls| + 4 ensures ms[k].closes == CloserLength(ls[k - 4]) {
      PartsOfThree(a, b, c, k);
      LineCloses(ls, tag, k - 4);
    }
    WrapperIsFound(ms, 3, |ls| + 4);
    forall i | 0 <= i < |ls| ensures ms[i + 4].closes == CloserLength(ls[i]) {
    }
  }

  lemma {:induction false} LinesWrapper(lines: seq<string>, body: string, tag: string, opts: CommentOptions)
    requires OneLine(opts.trigger) && PlainTag(tag)
    requires lines == CommentLines(Normalize(body), Lead(opts), Ticks(FenceLength(body)), tag, Trailer(opts))
    ensures LastOf(Blocks(Marks(lines, tag), 0)) == Some(Range(3, |Split(Normalize(body))| + 4))
       <==> NothingClosesEarly(body)
  {
    LeadIsOneLine(opts);
    TrailerIsOneLine(opts);
    CommentMarks(Normalize(body), Lead(opts), FenceLength(body), tag, Trailer(opts));
    WrapperMarks(Split(Normalize(body)), FenceLength(body), tag);
  }

  /** The scanner picks the fence put around the plan if and only if no line of
      the plan closes it early. */
  lemma {:induction false} OuterFenceIsFoundIff(text: string, body: string, tag: string, opts: CommentOptions)
    requires OneLine(opts.trigger) && PlainTag(tag) && IsCopyOf(text, body, tag, opts)
    requires body == "" || body[|body| - 1] != '\r'
    ensures LastOf(Blocks(Marks(Split(Normalize(text)), tag), 0))
              == Some(Range(3, |Split(Normalize(body))| + 4))
       <==> NothingClosesEarly(body)
  {
    CommentReads(body, tag, opts);
    LinesWrapper(Split(Normalize(text)), body, tag, opts);
  }

  lemma {:induction false} InnerIsBody(nb: string, lead: string, fence: string, tag: string, trailer: string)
    ensures Slice(CommentLines(nb, lead, fence, tag, trailer), Range(3, |Split(nb)| + 4)) == nb
  {
    var ls := CommentLines(nb, lead, fence, tag, trailer);
    assert ls[4..|Split(nb)| + 4] == Split(nb);
    JoinSplit(nb);
  }

  /** From the outer fence to its closing line, everything is inside a fence. */
  lemma {:induction false} InsideOuterFence(ls: seq<string>, n: nat, k: nat)
    requires n > 0 && NoneCloses(ls, n) && 3 <= k <= |ls| + 4
    ensures !TopLevel([QUIET, QUIET, QUIET, Mark(n, 0)] + FenceMarks(ls) + [Mark(n, n), QUIET, QUIET, QUIET], k)
  {
    var a, b, c := [QUIET, QUIET, QUIET, Mark(n, 0)], FenceMarks(ls), [Mark(n, n), QUIET, QUIET, QUIET];
    var ms := a + b + c;
    forall i | 0 <= i < |ms| && !(4 <= i < |ls| + 4)
      ensures ms[i] == if i < 4 then a[i] else c[i - |ls| - 4]
    {
      PartsOfThree(a, b, c, i);
    }
    forall i | 4 <= i < |ls| + 4 ensures ms[i].closes < n {
      PartsOfThree(a, b, c, i);
      LineCloses(ls, "", i - 4);
    }
    NoFenceOpens(ms, 0, 3);
    if k > 3 {
      FenceStaysOpen(ms, 3, k);
    }
  }

  lemma MarkerIsNoTicket()
    ensures SignOf(PLAN_COMMENT_MARKER).start.None? && Run(PLAN_COMMENT_MARKER) == 0
  {
  }

  /** No line of a plan comment can open a marked block. */
  lemma {:induction false} CommentHasNoMarker(nb: string, lead: string, n: nat, tag: string, trailer: string, k: nat)
    requires n >= 3 && PlainTag(tag) && Run(lead) == 0 && Run(trailer) == 0
    requires !("<!--" <= lead) && !("<!--" <= trailer) && NoneCloses(Split(nb), n)
    requires k < |Split(nb)| + 8
    ensures Signs(CommentLines(nb, lead, Ticks(n), tag, trailer))[k].start.None?
  {
    var ls := CommentLines(nb, lead, Ticks(n), tag, trailer);
    CommentMarks(nb, lead, n, tag, trailer);
    if 3 <= k <= |Split(nb)| + 4 {
      InsideOuterFence(Split(nb), n, k);
    } else {
      MarkerIsNoTicket();
      NoTicket(lead);
      NoTicket("");
      NoTicket(trailer);
      PartsOfThree([PLAN_COMMENT_MARKER, lead, "", Ticks(n) + tag], Split(nb), [Ticks(n), "", trailer, ""], k);
    }
  }

  /** No marker outranks the fence of a plan comment. */
  lemma {:induction false} CommentHasNoPair(nb: string, lead: string, n: nat, tag: string, trailer: string)
    requires n >= 3 && PlainTag(tag) && Run(lead) == 0 && Run(trailer) == 0
    requires !("<!--" <= lead) && !("<!--" <= trailer) && NoneCloses(Split(nb), n)
    ensures Pairs(Signs(CommentLines(nb, lead, Ticks(n), tag, trailer)), 0) == []
  {
    var ls := CommentLines(nb, lead, Ticks(n), tag, trailer);
    forall k | 0 <= k < |ls| ensures Signs(ls)[k].start.None? {
      CommentHasNoMarker(nb, lead, n, tag, trailer, k);
    }
    NoStartNoPair(Signs(ls), 0);
  }

  lemma {:induction false} CommentInnerIsBody(text: string, body: string, tag: string, opts: CommentOptions)
    requires OneLine(opts.trigger) && PlainTag(tag) && IsCopyOf(text, body, tag, opts)
    requires (body == "" || body[|body| - 1] != '\r') && NothingClosesEarly(body)
    ensures FencedInner(text, tag) == Some(Normalize(body))
  {
    CommentReads(body, tag, opts);
    OuterFenceIsFoundIff(text, body, tag, opts);
    InnerIsBody(Normalize(body), Lead(opts), Ticks(FenceLength(body)), tag, Trailer(opts));
  }

  lemma {:induction false} CommentIsUnmarked(text: string, body: string, tag: string, opts: CommentOptions)
    requires OneLine(opts.trigger) && PlainTag(tag) && IsCopyOf(text, body, tag, opts)
    requires (body == "" || body[|body| - 1] != '\r') && NothingClosesEarly(body)
    ensures MarkedBody(text) == None
  {
    CommentReads(body, tag, opts);
    LeadIsOneLine(opts);
    TrailerIsOneLine(opts);
    CommentHasNoPair(Normalize(body), Lead(opts), FenceLength(body), tag, Trailer(opts));
  }

  /** Every copy of a comment whose plan closes nothing early reads back as the
      plan itself, cleaned, and holds no marked block. */
  lemma {:induction false} CommentReadsBack(text: string, body: string, tag: string, opts: CommentOptions)
    requires OneLine(opts.trigger) && PlainTag(tag) && IsCopyOf(text, body, tag, opts)
    requires (body == "" || body[|body| - 1] != '\r') && NothingClosesEarly(body)
    ensures FencedBody(text, tag) == Clean(Normalize(body)) && MarkedBody(text) == None
  {
    CommentInnerIsBody(text, body, tag, opts);
    CommentIsUnmarked(text, body, tag, opts);
  }

  /** The fence is longer than every run in the plan, so a plan without `\r`
      cannot close it. */
  lemma {:induction false} LongerFenceNeverCloses(body: string)
    requires '\r' !in body
    ensures NothingClosesEarly(body)
  {
    NormalizeIsIdentity(body);
  }

  /** A plan the program may print: trimmed, not empty, no `\r`, and not opening
      with a frontmatter block. */
  ghost predicate CleanPlan(body: string) {
    && '\r' !in body && body != "" && Trim(body) == body
    && !exists i: nat, j: nat :: FrontmatterAt(body, i, j)
  }

  lemma {:induction false} CleanPlanIsClean(body: string)
    requires '\r' !in body
    ensures CleanPlan(body) ==> Clean(body) == Some(body)
  {
    StripChangesIffFrontmatter(body);
  }

  /** THE round trip. Whatever fences, ticket blocks or marker pairs the plan
      holds, reading the comment yields the plan, also after a web edit that
      turned every line end into `\r\n`. */
  lemma {:induction false} PlanCommentRoundTrip(body: string, opts: CommentOptions)
    requires OneLine(opts.trigger) && CleanPlan(body)
    requires BuildPlanComment(body, PLAN_FENCE, opts).Some?
    ensures PlanBody(BuildPlanComment(body, PLAN_FENCE, opts).value) == Some(body)
    ensures PlanBody(ToCrlf(BuildPlanComment(body, PLAN_FENCE, opts).value)) == Some(body)
  {
    PlainFences();
    CommentIsCopy(body, PLAN_FENCE, opts);
    LongerFenceNeverCloses(body);
    NormalizeIsIdentity(body);
    CleanPlanIsClean(body);
    var c := PlanCommentText(body, PLAN_FENCE, opts);
    CommentReadsBack(c, body, PLAN_FENCE, opts);
    CommentReadsBack(ToCrlf(c), body, PLAN_FENCE, opts);
  }

  /** The same for a plan set, which has its own fence tag. */
  lemma {:induction false} PlanSetCommentRoundTrip(body: string, opts: CommentOptions)
    requires OneLine(opts.trigger) && CleanPlan(body)
    requires BuildPlanComment(body, PLAN_SET_FENCE, opts).Some?
    ensures FencedBody(BuildPlanComment(body, PLAN_SET_FENCE, opts).value, PLAN_SET_FENCE) == Some(body)
    ensures FencedBody(ToCrlf(BuildPlanComment(body, PLAN_SET_FENCE, opts).value), PLAN_SET_FENCE) == Some(body)
  {
    PlainFences();
    CommentIsCopy(body, PLAN_SET_FENCE, opts);
    LongerFenceNeverCloses(body);
    NormalizeIsIdentity(body);
    CleanPlanIsClean(body);
    var c := PlanCommentText(body, PLAN_SET_FENCE, opts);
    CommentReadsBack(c, body, PLAN_SET_FENCE, opts);
    CommentReadsBack(ToCrlf(c), body, PLAN_SET_FENCE, opts);
  }

  lemma PlainFences()
    ensures PlainTag(PLAN_FENCE) && PlainTag(PLAN_SET_FENCE)
  {
  }

  lemma {:induction false} CommentIsCopy(body: string, tag: string, opts: CommentOptions)
    requires OneLine(opts.trigger) && PlainTag(tag) && '\r' !in body
    ensures IsCopyOf(ToCrlf(PlanCommentText(body, tag, opts)), body, tag, opts)
  {
    var fence, head, tail := Ticks(FenceLength(body)), Head(Lead(opts), Ticks(FenceLength(body)), tag),
                             Tail(Ticks(FenceLength(body)), Trailer(opts));
    LeadIsOneLine(opts);
    TrailerIsOneLine(opts);
    TagIsOneLine(fence, tag);
    MarkerIsOneLine();
    FourLines(PLAN_COMMENT_MARKER, Lead(opts), "", fence + tag);
    FourLines(fence, "", Trailer(opts), "");
    NoReturnInLines(head);
    NoReturnInLines(tail);
    NormalizeUndoesCrlf(PlanCommentText(body, tag, opts));
    NormalizeIsIdentity(PlanCommentText(body, tag, opts));
  }

  lemma {:induction false} LoneReturnLines(a: string, b: string)
    requires OneLine(a) && OneLine(b)
    ensures Split(Normalize(a + ("\r" + b))) == if b == "" then [a, ""] else [a, b]
    ensures Split(a + ("\r" + b)) == [a + ("\r" + b)]
  {
    assert ("\r" + b)[1..] == b;
    NormalizeIsIdentity(b);
    NormalizeIsIdentity(a);
    assert Normalize("\r" + b) == "\n" + b;
    NormalizeAppend(a, "\r" + b);
    assert a + ("\n" + b) == a + "\n" + b;
    SplitLines(a, b);
    SplitOneLine(a);
    SplitOneLine(b);
    SplitOneLine(a + ("\r" + b));
  }

  /** Some line of a plan closes the fence around it, and no other line from there
      on opens a block again. */
  ghost predicate ClosesAt(ls: seq<string>, tag: string, n: nat, q: nat) {
    && q < |ls| && CloserLength(ls[q]) >= n && (forall i | 0 <= i < q :: CloserLength(ls[i]) < n)
    && (forall i | q <= i < |ls| :: MarkOf(ls[i], tag).opens == 0)
  }

  lemma {:induction false} EarlyWrapper(ls: seq<string>, n: nat, tag: string, q: nat)
    requires n > 0 && ClosesAt(ls, tag, n, q)
    ensures LastOf(Blocks([QUIET, QUIET, QUIET, Mark(n, 0)] + Marks(ls, tag) + [Mark(0, n), QUIET, QUIET, QUIET], 0))
         == Some(Range(3, q + 4))
  {
    var a, b, c := [QUIET, QUIET, QUIET, Mark(n, 0)], Marks(ls, tag), [Mark(0, n), QUIET, QUIET, QUIET];
    var ms := a + b + c;
    forall k | 0 <= k < |ms|
      ensures ms[k] == if k < 4 then a[k] else if k < |ls| + 4 then MarkOf(ls[k - 4], tag) else c[k - |ls| - 4]
    {
      PartsOfThree(a, b, c, k);
      if 4 <= k < |ls| + 4 {
        MapAt((line: string) => MarkOf(line, tag), ls, k - 4);
      }
    }
    forall k | 4 <= k < |ls| + 4 ensures ms[k].closes == CloserLength(ls[k - 4]) {
    }
    WrapperIsFound(ms, 3, q + 4);
  }

  function Before(ls: seq<string>, q: nat): string
    requires q <= |ls|
  {
    if q == 0 then "" else Join(ls[..q])
  }

  lemma SliceIsBefore(a: seq<string>, ls: seq<string>, c: seq<string>, q: nat)
    requires |a| == 4 && q < |ls|
    ensures Slice(a + ls + c, Range(3, q + 4)) == Before(ls, q)
  {
    assert (a + ls + c)[4..q + 4] == ls[..q];
  }

  /** The scanner stops at that line. */
  lemma {:induction false} ClosedEarlyInner(text: string, body: string, opts: CommentOptions, q: nat)
    requires OneLine(opts.trigger) && IsCopyOf(text, body, PLAN_FENCE, opts)
    requires body == "" || body[|body| - 1] != '\r'
    requires ClosesAt(Split(Normalize(body)), PLAN_FENCE, FenceLength(body), q)
    ensures FencedInner(text, PLAN_FENCE) == Some(Before(Split(Normalize(body)), q))
  {
    PlainFences();
    CommentReads(body, PLAN_FENCE, opts);
    LeadIsOneLine(opts);
    TrailerIsOneLine(opts);
    CommentMarks(Normalize(body), Lead(opts), FenceLength(body), PLAN_FENCE, Trailer(opts));
    EarlyWrapper(Split(Normalize(body)), FenceLength(body), PLAN_FENCE, q);
    SliceIsBefore([PLAN_COMMENT_MARKER, Lead(opts), "", Ticks(FenceLength(body)) + PLAN_FENCE],
                  Split(Normalize(body)), [Ticks(FenceLength(body)), "", Trailer(opts), ""], q);
  }

  lemma {:induction false} EdgeSigns(a: seq<string>, ls: seq<string>, c: seq<string>)
    requires forall line | line in a || line in ls || line in c :: SignOf(line).start.None?
    ensures Pairs(Signs(a + ls + c), 0) == []
  {
    forall k | 0 <= k < |a + ls + c| ensures Signs(a + ls + c)[k].start.None? {
      PartsOfThree(a, ls, c, k);
    }
    NoStartNoPair(Signs(a + ls + c), 0);
  }

  lemma NoTicket(line: string)
    requires !("<!--" <= line)
    ensures SignOf(line).start.None?
  {
  }

  lemma {:induction false} NoSignNoPair(ls: seq<string>, lead: string, fence: string, trailer: string)
    requires fence != "" && fence[0] == '`' && !("<!--" <= lead) && !("<!--" <= trailer)
    requires forall line | line in ls :: SignOf(line).start.None?
    ensures Pairs(Signs([PLAN_COMMENT_MARKER, lead, "", fence + PLAN_FENCE] + ls + [fence, "", trailer, ""]), 0) == []
  {
    MarkerIsNoTicket();
    NoTicket(lead);
    NoTicket("");
    NoTicket(fence + PLAN_FENCE);
    NoTicket(fence);
    NoTicket(trailer);
    EdgeSigns([PLAN_COMMENT_MARKER, lead, "", fence + PLAN_FENCE], ls, [fence, "", trailer, ""]);
  }

  lemma {:induction false} SignlessIsUnmarked(text: string, body: string, opts: CommentOptions)
    requires OneLine(opts.trigger) && IsCopyOf(text, body, PLAN_FENCE, opts)
    requires body == "" || body[|body| - 1] != '\r'
    requires forall line | line in Split(Normalize(body)) :: SignOf(line).start.None?
    ensures MarkedBody(text) == None
  {
    PlainFences();
    CommentReads(body, PLAN_FENCE, opts);
    LeadIsOneLine(opts);
    TrailerIsOneLine(opts);
    assert Ticks(FenceLength(body))[0] == '`';
    NoSignNoPair(Split(Normalize(body)), Lead(opts), Ticks(FenceLength(body)), Trailer(opts));
  }

  /** What is read then: the plan up to that line, if it holds no markers. */
  lemma {:induction false} ClosedEarlyIsCut(text: string, body: string, opts: CommentOptions, q: nat)
    requires OneLine(opts.trigger) && IsCopyOf(text, body, PLAN_FENCE, opts)
    requires body == "" || body[|body| - 1] != '\r'
    requires ClosesAt(Split(Normalize(body)), PLAN_FENCE, FenceLength(body), q)
    requires forall line | line in Split(Normalize(body)) :: SignOf(line).start.None?
    ensures PlanBody(text) == Clean(Before(Split(Normalize(body)), q))
  {
    ClosedEarlyInner(text, body, opts, q);
    SignlessIsUnmarked(text, body, opts);
  }

  lemma CleanLetter(c: char)
    requires c in ['a', 'y']
    ensures Clean([c]) == Some([c])
  {
  }

  lemma CutMarks(body: string)
    requires Split(Normalize(body)) == ["a", Ticks(4)] && FenceLength(body) == 4
    ensures ClosesAt(Split(Normalize(body)), PLAN_FENCE, FenceLength(body), 1)
    ensures forall line | line in Split(Normalize(body)) :: SignOf(line).start.None?
    ensures Before(Split(Normalize(body)), 1) == "a"
  {
  }

  /** With a lone `\r` in the plan the run count misses a line, and the plan closes
      the outer fence itself: `a` and a second line is read back as `a`. */
  lemma {:induction false} LoneReturnBreaksTheFence(opts: CommentOptions)
    requires OneLine(opts.trigger)
    ensures PlanBody(PlanCommentText("a" + ("\r" + Ticks(4)), PLAN_FENCE, opts)) == Some("a")
  {
    var body := "a" + ("\r" + Ticks(4));
    PlainFences();
    LoneReturnLines("a", Ticks(4));
    assert FenceLength(body) == 4 by {
      assert Run(body) == 0;
      assert LongestRun([body]) == 0;
    }
    CutMarks(body);
    assert body[|body| - 1] == '`';
    ClosedEarlyIsCut(PlanCommentText(body, PLAN_FENCE, opts), body, opts, 1);
    CleanLetter('a');
  }
}
