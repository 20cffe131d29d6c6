/** Parked ticket bodies: what nonce-stamped markers delimit is read back whole. */
module ParkedTicket {
  import opened Text
  import opened Wrappers
  import opened Fences
  import opened PlanComment

  /** Every fence opened in these lines is closed in them. */
  predicate Balanced(lines: seq<string>) {
    FenceAt(FenceMarks(lines), |lines|) == 0
  }

  predicate NoStart(ss: seq<Sign>) {
    forall s | s in ss :: s.start.None?
  }

  /** No end marker of this nonce outside a fence. */
  predicate NoOwnEnd(ss: seq<Sign>, nonce: string) {
    forall s | s in ss :: s.end != Some(nonce)
  }

  lemma {:induction false} FenceMarksConcat(a: seq<string>, b: seq<string>)
    ensures FenceMarks(a + b) == FenceMarks(a) + FenceMarks(b)
  {
    MapConcat((line: string) => FenceMark(line), a, b);
  }

  lemma {:induction false} FenceAtPrefix(a: seq<Mark>, b: seq<Mark>, k: nat)
    requires k <= |a|
    ensures FenceAt(a + b, k) == FenceAt(a, k)
  {
    if k > 0 {
      FenceAtPrefix(a, b, k - 1);
    }
  }

  lemma {:induction false} FenceAtSuffix(a: seq<Mark>, b: seq<Mark>, k: nat)
    requires FenceAt(a, |a|) == 0 && k <= |b|
    ensures FenceAt(a + b, |a| + k) == FenceAt(b, k)
  {
    if k == 0 {
      FenceAtPrefix(a, b, |a|);
    } else {
      FenceAtSuffix(a, b, k - 1);
      assert (a + b)[|a| + k - 1] == b[k - 1];
    }
  }

  /** Lines after a balanced stretch are read as if the text began with them. */
  lemma SignsConcat(a: seq<string>, b: seq<string>)
    requires Balanced(a)
    ensures Signs(a + b) == Signs(a) + Signs(b)
  {
    SignsPrefix(a, b);
    SignsSuffix(a, b);
    SameByParts(Signs(a + b), Signs(a), Signs(b));
  }

  lemma SignsPrefix(a: seq<string>, b: seq<string>)
    ensures forall k | 0 <= k < |a| :: Signs(a + b)[k] == Signs(a)[k]
  {
    FenceMarksConcat(a, b);
    forall k | 0 <= k < |a| ensures Signs(a + b)[k] == Signs(a)[k] {
      FenceAtPrefix(FenceMarks(a), FenceMarks(b), k);
      assert (a + b)[k] == a[k] && (FenceMarks(a) + FenceMarks(b))[k] == FenceMarks(a)[k];
    }
  }

  lemma SignAfter(a: seq<string>, b: seq<string>, k: nat)
    requires Balanced(a) && k < |b|
    ensures Signs(a + b)[|a| + k] == Signs(b)[k]
  {
    FenceMarksConcat(a, b);
    FenceAtSuffix(FenceMarks(a), FenceMarks(b), k);
    assert (a + b)[|a| + k] == b[k] && (FenceMarks(a) + FenceMarks(b))[|a| + k] == FenceMarks(b)[k];
  }

  lemma SignsSuffix(a: seq<string>, b: seq<string>)
    requires Balanced(a)
    ensures forall k | 0 <= k < |b| :: Signs(a + b)[|a| + k] == Signs(b)[k]
  {
    forall k | 0 <= k < |b| ensures Signs(a + b)[|a| + k] == Signs(b)[k] {
      SignAfter(a, b, k);
    }
  }

  lemma SameByParts<T>(s: seq<T>, a: seq<T>, b: seq<T>)
    requires |s| == |a| + |b|
    requires forall k | 0 <= k < |a| :: s[k] == a[k]
    requires forall k | 0 <= k < |b| :: s[|a| + k] == b[k]
    ensures s == a + b
  {
  }

  lemma {:induction false} BalancedConcat(a: seq<string>, b: seq<string>)
    requires Balanced(a)
    ensures Balanced(a + b) <==> Balanced(b)
  {
    FenceMarksConcat(a, b);
    FenceAtSuffix(FenceMarks(a), FenceMarks(b), |b|);
  }

  lemma {:induction false} TrimStartOfSpace(s: string)
    requires s != "" && !IsSpace(s[0])
    ensures TrimStart(" " + s) == s && TrimStart(s) == s
  {
  }

  /** A printed marker is recognized, with its nonce, and is no fence line. */
  lemma {:induction false} MarkerReads(word: string, nonce: string)
    requires word != "" && !IsSpace(word[0]) && IsNonce(nonce)
    ensures MarkerNonce("<!-- " + word + nonce + " -->", word) == Some(nonce)
    ensures FenceMark("<!-- " + word + nonce + " -->") == Mark(0, 0)
  {
    var line := "<!-- " + word + nonce + " -->";
    var rest := word + nonce + " -->";
    assert line == "<!--" + (" " + rest);
    assert line[4..] == " " + rest;
    TrimStartOfSpace(rest);
    assert rest[..|word|] == word && rest[|word|..|word| + 8] == nonce && rest[|word| + 8..] == " -->";
    TrimStartOfSpace("-->");
    assert "-->"[3..] == "";
    assert line[0] == '<';
  }

  /** A marker carries one word only. */
  lemma {:induction false} MarkerHasOneWord(word: string, other: string, nonce: string)
    requires |word| > 13 && !IsSpace(word[0]) && |other| > 13 && other[13] != word[13]
    ensures MarkerNonce("<!-- " + word + nonce + " -->", other) == None
  {
    var line := "<!-- " + word + nonce + " -->";
    var rest := word + nonce + " -->";
    assert line[4..] == " " + rest;
    TrimStartOfSpace(rest);
    assert rest[13] == word[13];
  }

  lemma {:induction false} OwnSigns(nonce: string)
    requires IsNonce(nonce)
    ensures Signs([StartMarker(nonce)]) == [Sign(Some(nonce), None)]
    ensures Signs([EndMarker(nonce)]) == [Sign(None, Some(nonce))]
    ensures Balanced([StartMarker(nonce)]) && Balanced([EndMarker(nonce)])
  {
    assert MARKER_START[13] == 's' && MARKER_END[13] == 'e';
    MarkerReads(MARKER_START, nonce);
    MarkerReads(MARKER_END, nonce);
    MarkerHasOneWord(MARKER_START, MARKER_END, nonce);
    MarkerHasOneWord(MARKER_END, MARKER_START, nonce);
    MapAt((line: string) => FenceMark(line), [StartMarker(nonce)], 0);
    MapAt((line: string) => FenceMark(line), [EndMarker(nonce)], 0);
  }

  // ------------------------------------------------------------ on signs only

  lemma {:induction false} NoStartSkips(ss: seq<Sign>, i: nat, j: nat)
    requires i <= j <= |ss| && forall k | i <= k < j :: ss[k].start.None?
    ensures Pairs(ss, i) == Pairs(ss, j)
    decreases j - i
  {
    if i < j {
      NoStartSkips(ss, i + 1, j);
    }
  }

  lemma {:induction false} FirstEndIsUnique(ss: seq<Sign>, from: nat, nonce: Option<string>, j: nat)
    requires from <= j < |ss| && ss[j].end == nonce
    requires forall k | from <= k < j :: ss[k].end != nonce
    ensures FirstEnd(ss, from, nonce) == j
    decreases j - from
  {
  }

  lemma {:induction false} PairsAscend(ss: seq<Sign>, i: nat)
    requires i <= |ss|
    ensures forall r | r in Pairs(ss, i) :: r.open >= i && ss[r.open].start.Some?
    ensures forall r | r in Pairs(ss, i) :: FirstEnd(ss, r.open + 1, ss[r.open].start) == r.close
    decreases |ss| - i
  {
    if i < |ss| {
      var close := FirstEnd(ss, i + 1, ss[i].start);
      if ss[i].start.Some? && close < |ss| {
        PairsAscend(ss, close + 1);
      } else {
        PairsAscend(ss, i + 1);
      }
    }
  }

  /** One pair wraps lines whose own starts do not matter: it is the pair chosen
      if and only if its end is heard and no earlier line ends it. */
  lemma {:induction false} WrapperPairIsChosenIff(ss: seq<Sign>, a: nat, c: nat, nonce: string)
    requires a < c < |ss| && ss[a].start == Some(nonce)
    requires forall k | 0 <= k < a || c <= k < |ss| :: ss[k].start.None?
    ensures LastOf(Pairs(ss, 0)) == Some(Range(a, c))
       <==> ss[c].end == Some(nonce) && forall k | a < k < c :: ss[k].end != Some(nonce)
  {
    NoStartSkips(ss, 0, a);
    PairsAscend(ss, 0);
    assert LastOf(Pairs(ss, 0)) == Some(Range(a, c)) ==> Range(a, c) in Pairs(ss, 0);
    if ss[c].end == Some(nonce) && forall k | a < k < c :: ss[k].end != Some(nonce) {
      FirstEndIsUnique(ss, a + 1, Some(nonce), c);
      NoStartSkips(ss, c + 1, |ss|);
      assert Pairs(ss, 0) == [Range(a, c)];
    }
  }

  // ------------------------------------------------------------ on lines

  /** The lines of a parked issue: header, start marker, ticket, end marker, rest. */
  function ParkedLines(header: seq<string>, body: seq<string>, nonce: string, rest: seq<string>): seq<string> {
    header + [StartMarker(nonce)] + body + [EndMarker(nonce)] + rest
  }

  lemma {:induction false} ParkedSigns(header: seq<string>, body: seq<string>, nonce: string, rest: seq<string>)
    requires IsNonce(nonce) && Balanced(header)
    ensures Balanced(body) ==>
              Signs(ParkedLines(header, body, nonce, rest))
              == Signs(header) + [Sign(Some(nonce), None)] + Signs(body) + [Sign(None, Some(nonce))] + Signs(rest)
    ensures Signs(ParkedLines(header, body, nonce, rest))[..|header| + 1 + |body|]
         == Signs(header) + [Sign(Some(nonce), None)] + Signs(body)
    ensures !Balanced(body) ==>
              Signs(ParkedLines(header, body, nonce, rest))[|header| + 1 + |body|] == SILENT
  {
    var upTo := header + [StartMarker(nonce)];
    var all := upTo + body;
    OwnSigns(nonce);
    SignsConcat(header, [StartMarker(nonce)]);
    BalancedConcat(header, [StartMarker(nonce)]);
    SignsConcat(upTo, body);
    BalancedConcat(upTo, body);
    var after := [EndMarker(nonce)] + rest;
    assert ParkedLines(header, body, nonce, rest) == all + after == upTo + (body + after);
    if Balanced(body) {
      SignsConcat(all, after);
      SignsConcat([EndMarker(nonce)], rest);
    } else {
      SignsConcat(upTo, body + after);
      UnbalancedSilences(body, after);
    }
  }

  /** After an unclosed fence the next line is not heard. */
  lemma {:induction false} UnbalancedSilences(body: seq<string>, after: seq<string>)
    requires !Balanced(body) && after != []
    ensures Signs(body + after)[|body|] == SILENT
    ensures Signs(body + after)[..|body|] == Signs(body)
  {
    FenceMarksConcat(body, after);
    var x, y := FenceMarks(body), FenceMarks(after);
    forall k | 0 <= k <= |body| ensures FenceAt(FenceMarks(body + after), k) == FenceAt(x, k) {
      FenceAtPrefix(x, y, k);
    }
    forall k | 0 <= k < |body| ensures Signs(body + after)[k] == Signs(body)[k] {
      assert (body + after)[k] == body[k] && (x + y)[k] == x[k];
    }
  }

  /** From line `c` on nothing starts. */
  predicate QuietFrom(ss: seq<Sign>, c: nat) {
    forall k | c <= k < |ss| :: ss[k].start.None?
  }

  /** These signs are those of a header that starts nothing, the start marker and the
      ticket, and nothing starts after them. */
  predicate Delimited(ss: seq<Sign>, h: seq<Sign>, b: seq<Sign>, nonce: string) {
    && |h| + 1 + |b| < |ss| && ss[..|h| + 1 + |b|] == h + [Sign(Some(nonce), None)] + b
    && NoStart(h) && QuietFrom(ss, |h| + 1 + |b|)
  }

  /** The markers put around a ticket are the ones chosen if and only if the ticket
      leaves no fence open and has no end marker of the same nonce outside a fence. */
  lemma {:induction false} OwnMarkersAreChosenIff(header: seq<string>, body: seq<string>, nonce: string,
                                                  rest: seq<string>)
    requires IsNonce(nonce) && Balanced(header) && NoStart(Signs(header))
    requires QuietFrom(Signs(ParkedLines(header, body, nonce, rest)), |header| + 1 + |body|)
    ensures Chosen(Signs(ParkedLines(header, body, nonce, rest))) == Some(Range(|header|, |header| + 1 + |body|))
       <==> Balanced(body) && NoOwnEnd(Signs(body), nonce)
  {
    ParkedAreDelimited(header, body, nonce, rest);
    EndIsHeard(header, body, nonce, rest);
    OwnSignsAreChosenIff(Signs(ParkedLines(header, body, nonce, rest)), Signs(header), Signs(body), nonce,
                         Balanced(body));
  }

  lemma ParkedAreDelimited(header: seq<string>, body: seq<string>, nonce: string, rest: seq<string>)
    requires IsNonce(nonce) && Balanced(header) && NoStart(Signs(header))
    requires QuietFrom(Signs(ParkedLines(header, body, nonce, rest)), |header| + 1 + |body|)
    ensures Delimited(Signs(ParkedLines(header, body, nonce, rest)), Signs(header), Signs(body), nonce)
  {
    ParkedSigns(header, body, nonce, rest);
  }

  /** The end marker counts exactly if the ticket leaves no fence open. */
  lemma EndIsHeard(header: seq<string>, body: seq<string>, nonce: string, rest: seq<string>)
    requires IsNonce(nonce) && Balanced(header)
    ensures Signs(ParkedLines(header, body, nonce, rest))[|header| + 1 + |body|].end == Some(nonce) <==> Balanced(body)
  {
    ParkedSigns(header, body, nonce, rest);
  }

  /** On signs; `heard` tells whether the end marker counts. */
  lemma OwnSignsAreChosenIff(ss: seq<Sign>, h: seq<Sign>, b: seq<Sign>, nonce: string, heard: bool)
    requires Delimited(ss, h, b, nonce)
    requires heard <==> ss[|h| + 1 + |b|].end == Some(nonce)
    ensures Chosen(ss) == Some(Range(|h|, |h| + 1 + |b|)) <==> heard && NoOwnEnd(b, nonce)
  {
    var a, c := |h|, |h| + 1 + |b|;
    PrefixParts(ss, h, Sign(Some(nonce), None), b);
    assert forall k | 0 <= k < |h| :: h[k] in h;
    WrapperPairIsChosenIff(ss, a, c, nonce);
    assert forall k | 0 <= k < |b| :: ss[a + 1 + k] == b[k] && b[k] in b;
  }

  lemma PrefixParts<T>(s: seq<T>, a: seq<T>, m: T, b: seq<T>)
    requires |a| + 1 + |b| <= |s| && s[..|a| + 1 + |b|] == a + [m] + b
    ensures forall k | 0 <= k < |a| :: s[k] == a[k]
    ensures s[|a|] == m
    ensures forall k | |a| < k < |a| + 1 + |b| :: s[k] == b[k - |a| - 1]
  {
  }

  lemma {:induction false} OneThenMore(s: string, z: string)
    requires '\n' !in s
    ensures Split(s + "\n" + z) == [s] + Split(z)
  {
    SplitLines(s, z);
    SplitOneLine(s);
  }

  lemma {:induction false} BlankThenMore(h: string, t: string)
    ensures Split(h + "\n" + ("" + "\n" + t)) == Split(h) + [""] + Split(t)
  {
    OneThenMore("", t);
    SplitLines(h, "" + "\n" + t);
  }

  lemma {:induction false} BetweenMarkers(s: string, b: string, e: string, z: string)
    requires '\n' !in s && '\n' !in e
    ensures Split(s + "\n" + (b + "\n" + (e + "\n" + z))) == [s] + Split(b) + [e] + Split(z)
  {
    OneThenMore(e, z);
    SplitLines(b, e + "\n" + z);
    OneThenMore(s, b + "\n" + (e + "\n" + z));
  }

  lemma {:induction false} ParkedSplits(header: string, body: string, nonce: string, markers: string)
    requires IsNonce(nonce)
    ensures Split(ParkedIssueBody(header, body, nonce, markers))
         == ParkedLines(Split(header) + [""], Split(TrimEnd(body)), nonce, Split(markers))
  {
    MarkersAreOneLine(nonce);
    BetweenMarkers(StartMarker(nonce), TrimEnd(body), EndMarker(nonce), markers);
    BlankThenMore(header, StartMarker(nonce) + "\n" + (TrimEnd(body) + "\n" + (EndMarker(nonce) + "\n" + markers)));
  }

  lemma MarkersAreOneLine(nonce: string)
    requires IsNonce(nonce)
    ensures '\n' !in StartMarker(nonce) && '\n' !in EndMarker(nonce)
  {
  }

  /** Lines `a` and `c` are the chosen pair, and `body` lies between them. */
  ghost predicate Delimits(lines: seq<string>, a: nat, c: nat, body: seq<string>) {
    a < c < |lines| && Chosen(Signs(lines)) == Some(Range(a, c)) && body != [] && lines[a + 1..c] == body
  }

  lemma InnerOfSlice(lines: seq<string>, a: nat, c: nat, body: seq<string>)
    requires a < c < |lines| && body != [] && lines[a + 1..c] == body
    ensures InnerOf(lines, Some(Range(a, c))) == Some(Join(body))
  {
  }

  lemma DelimitedReads(text: string, lines: seq<string>, a: nat, c: nat, body: seq<string>)
    requires Split(Normalize(text)) == lines && Delimits(lines, a, c, body)
    ensures MarkedInner(text) == Some(Join(body))
  {
    InnerOfSlice(lines, a, c, body);
  }

  lemma InnerIsCleaned(text: string, inner: string)
    requires MarkedInner(text) == Some(inner)
    ensures MarkedBody(text) == Clean(inner)
  {
  }

  lemma BothRead(text: string, lines: seq<string>, a: nat, c: nat, body: seq<string>, inner: string)
    requires '\r' !in text && Split(text) == lines && Delimits(lines, a, c, body) && Join(body) == inner
    ensures MarkedBody(text) == Clean(inner)
    ensures MarkedBody(ToCrlf(text)) == Clean(inner)
  {
    NormalizeIsIdentity(text);
    NormalizeUndoesCrlf(text);
    DelimitedReads(text, lines, a, c, body);
    DelimitedReads(ToCrlf(text), lines, a, c, body);
    InnerIsCleaned(text, inner);
    InnerIsCleaned(ToCrlf(text), inner);
  }

  lemma TicketReads(text: string, header: seq<string>, body: seq<string>, nonce: string, rest: seq<string>,
                    inner: string)
    requires '\r' !in text && Split(text) == ParkedLines(header, body, nonce, rest)
    requires IsNonce(nonce) && Balanced(header) && NoStart(Signs(header)) && NoStart(Signs(rest))
    requires Balanced(body) && NoOwnEnd(Signs(body), nonce) && body != [] && Join(body) == inner
    ensures MarkedBody(text) == Clean(inner)
    ensures MarkedBody(ToCrlf(text)) == Clean(inner)
  {
    ParkedDelimits(header, body, nonce, rest);
    BothRead(text, ParkedLines(header, body, nonce, rest), |header|, |header| + 1 + |body|, body, inner);
  }

  /** A parked ticket is read back whole, whatever markers of other nonces and
      whatever complete fences it quotes. */
  lemma {:induction false} ParkedTicketRoundTrip(header: string, body: string, nonce: string, markers: string)
    requires IsNonce(nonce) && '\r' !in ParkedIssueBody(header, body, nonce, markers)
    requires Balanced(Split(header) + [""]) && NoStart(Signs(Split(header) + [""])) && NoStart(Signs(Split(markers)))
    requires Balanced(Split(TrimEnd(body))) && NoOwnEnd(Signs(Split(TrimEnd(body))), nonce)
    ensures MarkedBody(ParkedIssueBody(header, body, nonce, markers)) == Clean(TrimEnd(body))
    ensures MarkedBody(ToCrlf(ParkedIssueBody(header, body, nonce, markers))) == Clean(TrimEnd(body))
  {
    ParkedSplits(header, body, nonce, markers);
    JoinSplit(TrimEnd(body));
    TicketReads(ParkedIssueBody(header, body, nonce, markers), Split(header) + [""], Split(TrimEnd(body)), nonce,
                Split(markers), TrimEnd(body));
  }

  /** What lies between the markers is the ticket. */
  lemma ParkedSlice(header: seq<string>, body: seq<string>, nonce: string, rest: seq<string>)
    ensures ParkedLines(header, body, nonce, rest)[|header| + 1..|header| + 1 + |body|] == body
  {
  }

  /** Nothing starts after the ticket. */
  lemma NoStartAfter(header: seq<string>, body: seq<string>, nonce: string, rest: seq<string>)
    requires IsNonce(nonce) && Balanced(header) && NoStart(Signs(rest)) && Balanced(body)
    ensures QuietFrom(Signs(ParkedLines(header, body, nonce, rest)), |header| + 1 + |body|)
  {
    ParkedSigns(header, body, nonce, rest);
    QuietTail(Signs(header) + [Sign(Some(nonce), None)] + Signs(body), nonce, Signs(rest));
  }

  lemma QuietTail(before: seq<Sign>, nonce: string, rest: seq<Sign>)
    requires forall s | s in rest :: s.start.None?
    ensures QuietFrom(before + [Sign(None, Some(nonce))] + rest, |before|)
  {
  }

  lemma ParkedIsChosen(header: seq<string>, body: seq<string>, nonce: string, rest: seq<string>)
    requires IsNonce(nonce) && Balanced(header) && NoStart(Signs(header)) && NoStart(Signs(rest))
    requires Balanced(body) && NoOwnEnd(Signs(body), nonce)
    ensures Chosen(Signs(ParkedLines(header, body, nonce, rest))) == Some(Range(|header|, |header| + 1 + |body|))
  {
    NoStartAfter(header, body, nonce, rest);
    OwnMarkersAreChosenIff(header, body, nonce, rest);
  }

  lemma ParkedDelimits(header: seq<string>, body: seq<string>, nonce: string, rest: seq<string>)
    requires IsNonce(nonce) && Balanced(header) && NoStart(Signs(header)) && NoStart(Signs(rest))
    requires Balanced(body) && NoOwnEnd(Signs(body), nonce) && body != []
    ensures Delimits(ParkedLines(header, body, nonce, rest), |header|, |header| + 1 + |body|, body)
  {
    ParkedIsChosen(header, body, nonce, rest);
    ParkedSlice(header, body, nonce, rest);
  }

  /** A marker inside a fence never delimits: both ends of the chosen pair lie
      outside every fence. */
  lemma {:induction false} ChosenMarkersAreTopLevel(lines: seq<string>)
    ensures var last := Chosen(Signs(lines));
            last.Some? ==>
              TopLevel(FenceMarks(lines), last.value.open) && TopLevel(FenceMarks(lines), last.value.close)
  {
    var rs := Pairs(Signs(lines), 0);
    PairsAscend(Signs(lines), 0);
    if rs != [] {
      var last := rs[|rs| - 1];
      assert last in rs;
      assert Signs(lines)[last.open].start.Some?;
      assert Signs(lines)[last.close].end.Some?;
    }
  }
}
