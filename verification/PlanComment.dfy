/** Plan comments: how a plan is printed into a comment and read back, and the
    nonce-stamped markers that delimit a parked ticket body. */
module PlanComment {
  import opened Text
  import opened Wrappers
  import opened Fences

  const PLAN_FENCE := "junco-ticket"
  const PLAN_SET_FENCE := "junco-plan"
  const PLAN_COMMENT_MARKER := "<!-- junco:plan -->"
  const COMMENT_LIMIT := 60_000
  const MARKER_START := "junco:ticket:start:"
  const MARKER_END := "junco:ticket:end:"

  // ---------------------------------------------------------------- frontmatter

  /** A line feed and three dashes. */
  predicate DashesAt(s: string, j: nat) {
    j + 4 <= |s| && s[j] == '\n' && s[j + 1] == '-' && s[j + 2] == '-' && s[j + 3] == '-'
  }

  /** A frontmatter block opens the text: three dashes, white space whose last
      character is the line feed at `i`, and a closing `---` line after `j`. */
  ghost predicate FrontmatterAt(s: string, i: nat, j: nat) {
    && "---" <= s
    && 3 <= i < j < |s| && s[i] == '\n' && (forall k | 3 <= k < i :: IsSpace(s[k]))
    && DashesAt(s, j)
  }

  /** First `\n---` at `from` or later, or |s|. */
  function FindDashes(s: string, from: nat): (j: nat)
    requires from <= |s|
    ensures from <= j <= |s|
    ensures j < |s| ==> DashesAt(s, j)
    ensures forall k | from <= k < j :: !DashesAt(s, k)
    decreases |s| - from
  {
    if from == |s| || DashesAt(s, from) then from else FindDashes(s, from + 1)
  }

  /** Where the frontmatter block ends if its opening line ends at `i` or before;
      the pattern tries the latest line feed first. 0 means no block. */
  function FrontmatterEnd(s: string, i: nat): (end: nat)
    requires i <= |s|
    ensures end <= |s|
  {
    if i < 4 then 0
    else if s[i - 1] == '\n' && FindDashes(s, i) < |s| then
      var rest := s[FindDashes(s, i) + 4..];
      |s| - |TrimStart(rest)|
    else FrontmatterEnd(s, i - 1)
  }

  function StripFrontmatter(s: string): string {
    s[StripLength(s)..]
  }

  function StripLength(s: string): (n: nat)
    ensures n <= |s|
  {
    if "---" <= s then FrontmatterEnd(s, |s| - |TrimStart(s[3..])|) else 0
  }

  lemma {:induction false} FrontmatterEndFindsBlock(s: string, i: nat)
    requires 3 <= i <= |s| && "---" <= s && forall k | 3 <= k < i :: IsSpace(s[k])
    ensures FrontmatterEnd(s, i) > 0 <==> exists k: nat, j: nat :: k < i && FrontmatterAt(s, k, j)
  {
    if i >= 4 {
      FrontmatterEndFindsBlock(s, i - 1);
      if s[i - 1] == '\n' && FindDashes(s, i) < |s| {
        assert FrontmatterAt(s, i - 1, FindDashes(s, i));
      }
    }
  }

  /** The white space after the dashes ends where TrimStart says. */
  lemma SpaceAfterDashes(s: string, w: nat)
    requires "---" <= s && w == |s| - |TrimStart(s[3..])|
    ensures 3 <= w <= |s| && (forall k | 3 <= k < w :: IsSpace(s[k]))
    ensures w < |s| ==> !IsSpace(s[w])
  {
    var t := s[3..];
    TrimStartFacts(t);
    assert forall k | 3 <= k < w :: s[k] == t[k - 3];
    if w < |s| {
      assert s[w] == TrimStart(t)[0];
    }
  }

  lemma {:induction false} FrontmatterStartsInSpace(s: string, w: nat)
    requires 3 <= w <= |s| && "---" <= s && forall k | 3 <= k < w :: IsSpace(s[k])
    requires w < |s| ==> !IsSpace(s[w])
    ensures FrontmatterEnd(s, w) > 0 <==> exists i: nat, j: nat :: FrontmatterAt(s, i, j)
  {
    FrontmatterEndFindsBlock(s, w);
    assert IsSpace('\n');
    assert forall i: nat, j: nat :: FrontmatterAt(s, i, j) ==> i < w;
  }

  lemma {:induction false} StripLengthIffFrontmatter(s: string)
    ensures StripLength(s) > 0 <==> exists i: nat, j: nat :: FrontmatterAt(s, i, j)
  {
    if "---" <= s {
      var w := |s| - |TrimStart(s[3..])|;
      SpaceAfterDashes(s, w);
      FrontmatterStartsInSpace(s, w);
    }
  }

  /** Stripping changes a text exactly when a frontmatter block opens it. */
  lemma StripChangesIffFrontmatter(s: string)
    ensures StripFrontmatter(s) != s <==> exists i: nat, j: nat :: FrontmatterAt(s, i, j)
  {
    StripLengthIffFrontmatter(s);
    assert |StripFrontmatter(s)| == |s| - StripLength(s);
  }

  /** The block the pattern takes below `i`: the latest opening, its first dashes. */
  ghost predicate Taken(s: string, i: nat, k: nat, j: nat) {
    && k < i && FrontmatterAt(s, k, j)
    && forall k': nat, j': nat :: k' < i && FrontmatterAt(s, k', j') ==> k' < k || (k' == k && j <= j')
  }

  lemma {:induction false} FrontmatterEndTakes(s: string, i: nat) returns (k: nat, j: nat)
    requires 3 <= i <= |s| && "---" <= s && (forall k | 3 <= k < i :: IsSpace(s[k])) && FrontmatterEnd(s, i) > 0
    ensures Taken(s, i, k, j) && FrontmatterEnd(s, i) == |s| - |TrimStart(s[j + 4..])|
  {
    if s[i - 1] == '\n' && FindDashes(s, i) < |s| {
      k, j := i - 1, FindDashes(s, i);
    } else {
      k, j := FrontmatterEndTakes(s, i - 1);
    }
  }

  /** What remains when a block is stripped: the text behind the first dashes after
      the latest opening of a block, without the white space there. */
  lemma StripLeaves(s: string) returns (k: nat, j: nat)
    requires StripFrontmatter(s) != s
    ensures Taken(s, |s|, k, j) && StripFrontmatter(s) == TrimStart(s[j + 4..])
  {
    var w := |s| - |TrimStart(s[3..])|;
    SpaceAfterDashes(s, w);
    k, j := FrontmatterEndTakes(s, w);
    assert forall k': nat, j': nat :: FrontmatterAt(s, k', j') ==> k' < w by {
      assert IsSpace('\n');
    }
    TrimStartFacts(s[j + 4..]);
    TailOfTail(s, j + 4, |s| - |TrimStart(s[j + 4..])|);
  }

  lemma DashesAre(s: string, j: nat)
    requires j <= |s|
    ensures DashesAt(s, j) <==> "\n---" <= s[j..]
  {
  }

  lemma FirstDashes(s: string, from: nat, j: nat)
    requires from <= j < |s| && DashesAt(s, j) && forall k | from <= k < j :: !DashesAt(s, k)
    ensures FindDashes(s, from) == j
  {
  }

  /** A block whose first line of text follows the opening at once. */
  lemma BlockGoes(s: string, j: nat)
    requires "---\n" <= s && 4 <= j < |s| && !IsSpace(s[4]) && DashesAt(s, j)
    requires forall k | 4 <= k < j :: !DashesAt(s, k)
    ensures StripFrontmatter(s) == TrimStart(s[j + 4..])
  {
    assert s[3..][0] == '\n' && IsSpace('\n') && s[3..][1..] == s[4..] && s[4..][0] == s[4];
    assert TrimStart(s[3..]) == TrimStart(s[4..]) == s[4..];
    FirstDashes(s, 4, j);
    assert StripLength(s) == FrontmatterEnd(s, 4) == |s| - |TrimStart(s[j + 4..])|;
    TrimStartFacts(s[j + 4..]);
    TailOfTail(s, j + 4, |s| - |TrimStart(s[j + 4..])|);
  }

  /** Where the text between the dashes has none, they are the first. */
  lemma WrittenDashes(head: string, rest: string, k: nat)
    requires k < |head| && !("\n---" <= head[k..])
    ensures !("\n---" <= (head + "\n---" + rest)[k..])
  {
    var t := head + "\n---" + rest;
    assert t[k..][|head| - k] == t[|head|] == '\n';
    if k + 4 <= |head| {
      assert head[k..][..4] == t[k..][..4];
    }
  }

  /** Frontmatter as it is written, between two lines of dashes, goes, and the white
      space behind it; the rest stays as it is. */
  lemma WrittenFrontmatterGoes(head: string, rest: string)
    requires head != "" && !IsSpace(head[0]) && forall j | 0 <= j <= |head| :: !("\n---" <= head[j..])
    ensures StripFrontmatter("---\n" + head + "\n---" + rest) == TrimStart(rest)
  {
    var s, t, j := "---\n" + head + "\n---" + rest, head + "\n---" + rest, 4 + |head|;
    assert s == "---\n" + t && s[4] == head[0];
    forall k | 4 <= k <= j ensures s[k..] == t[k - 4..] {
    }
    assert t[|head|..] == "\n---" + rest;
    DashesAre(s, j);
    forall k | 4 <= k < j ensures !DashesAt(s, k) {
      DashesAre(s, k);
      WrittenDashes(head, rest, k - 4);
    }
    BlockGoes(s, j);
    assert s[j + 4..] == rest;
  }

  lemma TailOfTail(s: string, i: nat, j: nat)
    requires i <= j <= |s|
    ensures s[j..] == s[i..][j - i..]
  {
  }

  /** What every extractor makes of the text between the delimiters. */
  function Clean(inner: string): Option<string> {
    var t := Trim(StripFrontmatter(inner));
    if t == "" then None else Some(t)
  }

  // ---------------------------------------------------------------- fenced body

  /** Text of the last complete block of this tag, line endings normalized. */
  function FencedInner(text: string, tag: string): Option<string> {
    InnerOf(Split(Normalize(text)), LastOf(Blocks(Marks(Split(Normalize(text)), tag), 0)))
  }

  function InnerOf(lines: seq<string>, range: Option<Range>): Option<string> {
    match range
    case None => None
    case Some(r) => if r.open < r.close < |lines| then Some(Slice(lines, r)) else None
  }

  /** The lines strictly between the delimiters, joined. */
  function Slice(lines: seq<string>, r: Range): string
    requires r.open < r.close < |lines|
  {
    if r.open + 1 == r.close then "" else Join(lines[r.open + 1..r.close])
  }

  function FencedBody(text: string, tag: string): Option<string> {
    match FencedInner(text, tag)
    case None => None
    case Some(inner) => Clean(inner)
  }

  method ExtractFencedBlock(text: string, tag: string, stripFrontmatter: bool := true)
    returns (body: Option<string>)
    requires tag != ""
    ensures stripFrontmatter ==> body == FencedBody(text, tag)
    ensures !stripFrontmatter ==>
              body == match FencedInner(text, tag)
                      case None => None
                      case Some(s) => if Trim(s) == "" then None else Some(Trim(s))
  {
    var lines := Split(Normalize(text));
    var range := LastFencedBlockRange(lines, tag);
    if range.None? {
      return None;
    }
    var inner := Slice(lines, range.value);
    var stripped := Trim(if stripFrontmatter then StripFrontmatter(inner) else inner);
    return if stripped == "" then None else Some(stripped);
  }

  // ---------------------------------------------------------------- marked body

  predicate IsHex(c: char) {
    '0' <= c <= '9' || 'a' <= c <= 'f'
  }

  predicate IsNonce(s: string) {
    |s| == 8 && forall i | 0 <= i < 8 :: IsHex(s[i])
  }

  /** Eight hexadecimal digits, in lower case. */
  lemma NonceIs(s: string)
    ensures IsNonce(s) <==> |s| == 8 && forall c | c in s :: c in "0123456789abcdef"
  {
    forall c ensures IsHex(c) <==> c in "0123456789abcdef" {
      HexIs(c);
    }
    assert forall i | 0 <= i < |s| :: s[i] in s;
  }

  lemma HexIs(c: char)
    ensures IsHex(c) <==> c in "0123456789abcdef"
  {
    var digits := "0123456789abcdef";
    assert '0' as int == 48 && 'a' as int == 97;
    if IsHex(c) {
      var i := if c <= '9' then c as int - '0' as int else c as int - 'a' as int + 10;
      assert digits[i] == c;
    }
  }

  /** The nonce if `line` is an HTML comment holding `word` and a nonce. */
  function MarkerNonce(line: string, word: string): Option<string> {
    if !("<!--" <= line) then None
    else
      var a := TrimStart(line[4..]);
      if !(word <= a) || |a| < |word| + 8 || !IsNonce(a[|word|..|word| + 8]) then None
      else
        var b := TrimStart(a[|word| + 8..]);
        if "-->" <= b && AllSpace(b[3..]) then Some(a[|word|..|word| + 8]) else None
  }

  /** What a line says to the marker scan. */
  datatype Sign = Sign(start: Option<string>, end: Option<string>)

  const SILENT := Sign(None, None)

  function SignOf(line: string): Sign {
    Sign(MarkerNonce(line, MARKER_START), MarkerNonce(line, MARKER_END))
  }

  /** A line as the fence tracker sees it: any info text may follow an opener. */
  function FenceMark(line: string): Mark {
    Mark(if Run(line) >= 3 then Run(line) else 0, CloserLength(line))
  }

  function FenceMarks(lines: seq<string>): (ms: seq<Mark>)
    ensures |ms| == |lines|
  {
    Map((line: string) => FenceMark(line), lines)
  }

  /** Length of the fence that is open after a line; 0 means none. */
  function Next(fence: nat, m: Mark): nat {
    if fence == 0 then m.opens else if m.closes >= fence then 0 else fence
  }

  /** Length of the fence that is open before line `i`. */
  function FenceAt(ms: seq<Mark>, i: nat): nat
    requires i <= |ms|
  {
    if i == 0 then 0 else Next(FenceAt(ms, i - 1), ms[i - 1])
  }

  predicate TopLevel(ms: seq<Mark>, i: nat)
    requires i < |ms|
  {
    FenceAt(ms, i) == 0 && ms[i].opens == 0
  }

  /** The signs that count: a line inside a fence says nothing. */
  function Signs(lines: seq<string>): (ss: seq<Sign>)
    ensures |ss| == |lines|
  {
    seq(|lines|, i requires 0 <= i < |lines| =>
      if TopLevel(FenceMarks(lines), i) then SignOf(lines[i]) else SILENT)
  }

  function FirstEnd(ss: seq<Sign>, from: nat, nonce: Option<string>): (j: nat)
    requires from <= |ss|
    ensures from <= j <= |ss|
    ensures forall k | from <= k < j :: ss[k].end != nonce
    ensures j < |ss| ==> ss[j].end == nonce
    decreases |ss| - from
  {
    if from == |ss| || ss[from].end == nonce then from else FirstEnd(ss, from + 1, nonce)
  }

  /** The complete marker pairs from line `i` on. */
  function Pairs(ss: seq<Sign>, i: nat): (rs: seq<Range>)
    requires i <= |ss|
    ensures forall r | r in rs :: r.open < r.close < |ss|
    decreases |ss| - i
  {
    if i == |ss| then []
    else
      var close := FirstEnd(ss, i + 1, ss[i].start);
      if ss[i].start.Some? && close < |ss| then [Range(i, close)] + Pairs(ss, close + 1)
      else Pairs(ss, i + 1)
  }

  function Chosen(ss: seq<Sign>): Option<Range> {
    LastOf(Pairs(ss, 0))
  }

  /** Text between the chosen markers, line endings normalized. */
  function MarkedInner(text: string): Option<string> {
    var lines := Split(Normalize(text));
    InnerOf(lines, Chosen(Signs(lines)))
  }

  function MarkedBody(text: string): Option<string> {
    match MarkedInner(text)
    case None => None
    case Some(inner) => Clean(inner)
  }

  /** First pass: which lines lie outside every fence. */
  method MarkTopLevel(ms: seq<Mark>) returns (top: array<bool>)
    ensures fresh(top) && top.Length == |ms|
    ensures forall i | 0 <= i < |ms| :: top[i] == TopLevel(ms, i)
  {
    top := new bool[|ms|];
    var fence := 0;
    for i := 0 to |ms|
      invariant fence == FenceAt(ms, i)
      invariant forall k | 0 <= k < i :: top[k] == TopLevel(ms, k)
    {
      if fence == 0 {
        if ms[i].opens > 0 {
          fence := ms[i].opens;
          top[i] := false;
        } else {
          top[i] := true;
        }
      } else {
        top[i] := false;
        if ms[i].closes >= fence {
          fence := 0;
        }
      }
    }
  }

  /** The inner loop: the first line at or after `from` that counts and ends `nonce`. */
  method FindEnd(signs: seq<Sign>, top: array<bool>, ghost ss: seq<Sign>, from: nat, nonce: Option<string>)
    returns (close: int)
    requires top.Length == |signs| == |ss| && from <= |ss| && nonce.Some?
    requires forall i | 0 <= i < |ss| :: ss[i] == if top[i] then signs[i] else SILENT
    ensures close == if FirstEnd(ss, from, nonce) < |ss| then FirstEnd(ss, from, nonce) else -1
  {
    close := -1;
    var j := from;
    while j < |signs|
      invariant from <= j <= |signs| && close == -1
      invariant FirstEnd(ss, from, nonce) == FirstEnd(ss, j, nonce)
    {
      if top[j] && signs[j].end == nonce {
        close := j;
        break;
      }
      j := j + 1;
    }
  }

  /** The last pair from line `i` on, or else `last`. */
  function ChosenFrom(ss: seq<Sign>, i: nat, last: Option<Range>): Option<Range>
    requires i <= |ss|
  {
    LastOr(Pairs(ss, i), last)
  }

  lemma LastPairStep(ss: seq<Sign>, i: nat, last: Option<Range>)
    requires i < |ss|
    ensures ChosenFrom(ss, i, last)
         == if ss[i].start.Some? && FirstEnd(ss, i + 1, ss[i].start) < |ss|
            then ChosenFrom(ss, FirstEnd(ss, i + 1, ss[i].start) + 1,
                            Some(Range(i, FirstEnd(ss, i + 1, ss[i].start))))
            else ChosenFrom(ss, i + 1, last)
  {
  }

  /** Second pass: the last complete pair among the lines that count. */
  method LastPair(signs: seq<Sign>, top: array<bool>, ghost ss: seq<Sign>)
    returns (last: Option<Range>)
    requires top.Length == |signs| == |ss|
    requires forall i | 0 <= i < |ss| :: ss[i] == if top[i] then signs[i] else SILENT
    ensures last == Chosen(ss)
  {
    last := None;
    var i := 0;
    while i < |signs|
      invariant 0 <= i <= |signs|
      invariant Chosen(ss) == ChosenFrom(ss, i, last)
    {
      LastPairStep(ss, i, last);
      if top[i] && signs[i].start.Some? {
        var close := FindEnd(signs, top, ss, i + 1, signs[i].start);
        if close != -1 {
          last := Some(Range(i, close));
          i := close;
        }
      }
      i := i + 1;
    }
  }

  method ExtractMarkedBlock(text: string) returns (body: Option<string>)
    ensures body == MarkedBody(text)
  {
    var lines := Split(Normalize(text));
    var top := MarkTopLevel(FenceMarks(lines));
    var signs := seq(|lines|, i requires 0 <= i < |lines| => SignOf(lines[i]));
    var last := LastPair(signs, top, Signs(lines));
    if last.None? {
      return None;
    }
    return Clean(Slice(lines, last.value));
  }

  // ---------------------------------------------------------------- plan body

  function PlanBody(text: string): Option<string> {
    if MarkedBody(text).Some? then MarkedBody(text) else FencedBody(text, PLAN_FENCE)
  }

  /** Markers first, then the fence. */
  method ExtractPlanBody(text: string) returns (body: Option<string>)
    ensures body == PlanBody(text)
  {
    body := ExtractMarkedBlock(text);
    if body.None? {
      body := ExtractFencedBlock(text, PLAN_FENCE);
    }
  }

  // ---------------------------------------------------------------- printing

  /** Length in 16-bit code units, the unit of the comment limit. */
  function Utf16Length(s: string): nat {
    if s == "" then 0
    else (if s[0] as int >= 0x1_0000 then 2 else 1) + Utf16Length(s[1..])
  }

  datatype CommentOptions = CommentOptions(issue: nat, trigger: string, requireApproval: bool)

  /** Length of the fence around a plan: more than any run in it, at least 4. */
  function FenceLength(body: string): nat {
    var n := LongestRun(Split(body)) + 1;
    if n > 4 then n else 4
  }

  // The wording is cut into short pieces; only the joined text matters.
  const PROPOSED := "**Proposed plan** for #"
  const REVIEW := " \U{2014} review it, then apply `"
  const APPROVED := ":approved` to execute. "
  const EDIT_FIRST := "You can EDIT this comment "
  const EDITED_RUNS := "first \U{2014} the edited plan "
  const RUNS := "is what runs."
  const NEXT_SWEEP := " \U{2014} it will execute on the "
  const NO_APPROVAL := "next sweep (`require_approval"
  const STILL_EDIT := " = false`). You can still EDIT"
  const BEFORE_THEN := " this comment before then."
  const REPLAN := "_Re-plan: remove `"
  const NEWER := ":plan-ready` (a newer plan "
  const SUPERSEDES := "comment supersedes this one)._"

  function Lead(opts: CommentOptions): string {
    PROPOSED + Digits(opts.issue) +
    if opts.requireApproval
    then REVIEW + opts.trigger + (APPROVED + EDIT_FIRST + EDITED_RUNS + RUNS)
    else NEXT_SWEEP + NO_APPROVAL + STILL_EDIT + BEFORE_THEN
  }

  function Trailer(opts: CommentOptions): string {
    REPLAN + opts.trigger + (NEWER + SUPERSEDES)
  }

  function Head(lead: string, fence: string, tag: string): string {
    PLAN_COMMENT_MARKER + "\n" + (lead + "\n" + ("" + "\n" + (fence + tag)))
  }

  function Tail(fence: string, trailer: string): string {
    fence + "\n" + ("" + "\n" + (trailer + "\n" + ""))
  }

  /** The comment before the length check. */
  function PlanCommentText(body: string, tag: string, opts: CommentOptions): string {
    var fence := Ticks(FenceLength(body));
    Head(Lead(opts), fence, tag) + "\n" + (body + "\n" + Tail(fence, Trailer(opts)))
  }

  /** The one plan comment, or None when it would exceed the comment limit. */
  function BuildPlanComment(body: string, tag: string, opts: CommentOptions): Option<string> {
    var out := PlanCommentText(body, tag, opts);
    if Utf16Length(out) > COMMENT_LIMIT then None else Some(out)
  }

  /** A parked ticket body between nonce-stamped markers. */
  function ParkedIssueBody(header: string, body: string, nonce: string, markers: string): string {
    header + "\n" + ("" + "\n" + (StartMarker(nonce) + "\n" +
    (TrimEnd(body) + "\n" + (EndMarker(nonce) + "\n" + markers))))
  }

  function StartMarker(nonce: string): string {
    "<!-- " + MARKER_START + nonce + " -->"
  }

  function EndMarker(nonce: string): string {
    "<!-- " + MARKER_END + nonce + " -->"
  }
}
