/** Plain text as the scanners see it: lines, whitespace, line endings. */
module Text {

  /** White space in the sense of the `\s` class and of `trim`; the two agree. */
  predicate IsSpace(c: char) {
    || '\t' <= c <= '\r' || c == ' ' || c == '\U{A0}' || c == '\U{1680}'
    || '\U{2000}' <= c <= '\U{200A}' || c == '\U{2028}' || c == '\U{2029}'
    || c == '\U{202F}' || c == '\U{205F}' || c == '\U{3000}' || c == '\U{FEFF}'
  }

  /** The white space and line terminators of ECMAScript, sections 12.2 and 12.3. */
  lemma SpacesAre(c: char)
    ensures IsSpace(c) <==> c as int in {
      9, 10, 11, 12, 13, 32, 0xA0, 0x1680, 0x2000, 0x2001, 0x2002, 0x2003, 0x2004, 0x2005, 0x2006, 0x2007, 0x2008,
      0x2009, 0x200A, 0x2028, 0x2029, 0x202F, 0x205F, 0x3000, 0xFEFF }
  {
  }

  predicate OneLine(s: string) {
    forall i | 0 <= i < |s| :: s[i] != '\n' && s[i] != '\r'
  }

  function TrimStart(s: string): (r: string)
    ensures |r| <= |s|
  {
    if s == "" || !IsSpace(s[0]) then s else TrimStart(s[1..])
  }

  predicate AllSpace(s: string) {
    TrimStart(s) == ""
  }

  lemma {:induction false} TrimStartFacts(s: string)
    ensures forall i | 0 <= i < |s| - |TrimStart(s)| :: IsSpace(s[i])
    ensures TrimStart(s) == s[|s| - |TrimStart(s)|..]
    ensures TrimStart(s) != "" ==> !IsSpace(TrimStart(s)[0])
  {
    if s != "" && IsSpace(s[0]) {
      TrimStartFacts(s[1..]);
    }
  }

  function TrimEnd(s: string): (r: string)
    ensures |r| <= |s|
  {
    if s == "" || !IsSpace(s[|s| - 1]) then s else TrimEnd(s[..|s| - 1])
  }

  function Trim(s: string): string {
    TrimEnd(TrimStart(s))
  }

  /** The pieces of `s` between line feeds. */
  function Split(s: string): (ls: seq<string>)
    ensures |ls| >= 1
  {
    if s == "" then [""]
    else if s[0] == '\n' then [""] + Split(s[1..])
    else var ls := Split(s[1..]); [[s[0]] + ls[0]] + ls[1..]
  }

  /** Decimal notation. */
  function Digits(n: nat): (s: string)
    ensures s != "" && forall i | 0 <= i < |s| :: '0' <= s[i] <= '9'
  {
    var d := [('0' as int + n % 10) as char];
    if n < 10 then d else Digits(n / 10) + d
  }

  function Map<A, B>(f: A -> B, s: seq<A>): (t: seq<B>)
    ensures |t| == |s|
  {
    if s == [] then [] else [f(s[0])] + Map(f, s[1..])
  }

  lemma {:induction false} MapAt<A, B>(f: A -> B, s: seq<A>, i: nat)
    requires i < |s|
    ensures Map(f, s)[i] == f(s[i])
  {
    if i > 0 {
      MapAt(f, s[1..], i - 1);
    }
  }

  lemma {:induction false} MapConcat<A, B>(f: A -> B, a: seq<A>, b: seq<A>)
    ensures Map(f, a + b) == Map(f, a) + Map(f, b)
  {
    if a == [] {
      assert a + b == b;
    } else {
      MapConcat(f, a[1..], b);
      assert (a + b)[1..] == a[1..] + b && (a + b)[0] == a[0];
    }
  }

  lemma MapOfFour<A, B>(f: A -> B, a: A, b: A, c: A, d: A)
    ensures Map(f, [a, b, c, d]) == [f(a), f(b), f(c), f(d)]
  {
    assert [a, b, c, d] == [a] + ([b] + ([c] + [d]));
    MapConcat(f, [a], [b] + ([c] + [d]));
    MapConcat(f, [b], [c] + [d]);
    MapConcat(f, [c], [d]);
  }

  function Join(ls: seq<string>): string
    requires |ls| >= 1
  {
    if |ls| == 1 then ls[0] else ls[0] + "\n" + Join(ls[1..])
  }

  lemma {:induction false} LinesHaveNoLineFeed(s: string)
    ensures forall i | 0 <= i < |Split(s)| :: '\n' !in Split(s)[i]
  {
    if s != "" {
      LinesHaveNoLineFeed(s[1..]);
    }
  }

  lemma {:induction false} JoinSplit(s: string)
    ensures Join(Split(s)) == s
  {
    if s == "" {
    } else if s[0] == '\n' {
      JoinSplit(s[1..]);
      assert Split(s)[1..] == Split(s[1..]);
    } else {
      var ls := Split(s[1..]);
      JoinSplit(s[1..]);
      assert Split(s)[1..] == ls[1..];
      assert Split(s)[0] == [s[0]] + ls[0];
    }
  }

  /** Two lists of lines read as one text: the last line of the first continues
      in the first line of the second. */
  function Glue(x: seq<string>, y: seq<string>): (z: seq<string>)
    requires |x| >= 1 && |y| >= 1
    ensures |z| == |x| + |y| - 1
  {
    x[..|x| - 1] + [x[|x| - 1] + y[0]] + y[1..]
  }

  lemma GlueLonger(c: char, x: seq<string>, y: seq<string>)
    requires |x| >= 1 && |y| >= 1
    ensures Glue([[c] + x[0]] + x[1..], y) == [[c] + Glue(x, y)[0]] + Glue(x, y)[1..]
  {
    if |x| == 1 {
      assert [c] + (x[0] + y[0]) == ([c] + x[0]) + y[0];
    }
  }

  /** Splitting does not care where a text was cut. */
  lemma {:induction false} SplitAppend(a: string, b: string)
    ensures Split(a + b) == Glue(Split(a), Split(b))
  {
    if a == "" {
      assert a + b == b;
      GlueNothing(Split(b));
    } else {
      SplitAppend(a[1..], b);
      assert a + b == [a[0]] + (a[1..] + b);
      SplitLonger(a[0], a[1..]);
      SplitLonger(a[0], a[1..] + b);
      assert [a[0]] + a[1..] == a;
      GlueLonger(a[0], Split(a[1..]), Split(b));
      GlueMore(Split(a[1..]), Split(b));
    }
  }

  lemma SplitLonger(c: char, s: string)
    ensures Split([c] + s)
         == if c == '\n' then [""] + Split(s) else [[c] + Split(s)[0]] + Split(s)[1..]
  {
  }

  lemma GlueNothing(y: seq<string>)
    requires |y| >= 1
    ensures Glue([""], y) == y
  {
    assert "" + y[0] == y[0];
  }

  lemma GlueMore(x: seq<string>, y: seq<string>)
    requires |x| >= 1 && |y| >= 1
    ensures Glue([""] + x, y) == [""] + Glue(x, y)
  {
  }

  lemma SplitLines(a: string, b: string)
    ensures Split(a + "\n" + b) == Split(a) + Split(b)
  {
    SplitAppend(a, "\n" + b);
    assert ("\n" + b)[1..] == b && a + "\n" + b == a + ("\n" + b);
    GlueBreak(Split(a), Split(b));
  }

  lemma GlueBreak(x: seq<string>, y: seq<string>)
    requires |x| >= 1
    ensures Glue(x, [""] + y) == x + y
  {
    assert x[|x| - 1] + "" == x[|x| - 1];
    assert ([""] + y)[1..] == y;
  }

  lemma {:induction false} SplitOneLine(s: string)
    requires '\n' !in s
    ensures Split(s) == [s]
  {
    if s != "" {
      SplitOneLine(s[1..]);
      assert [s[0]] + s[1..] == s;
    }
  }

  /** `\r\n` and a lone `\r` both become `\n`. */
  function Normalize(s: string): (r: string)
    ensures '\r' !in r
    ensures |r| <= |s|
  {
    if s == "" then ""
    else if s[0] != '\r' then [s[0]] + Normalize(s[1..])
    else if |s| > 1 && s[1] == '\n' then "\n" + Normalize(s[2..])
    else "\n" + Normalize(s[1..])
  }

  /** What a web editor does to a text on save. */
  function ToCrlf(s: string): string {
    if s == "" then ""
    else (if s[0] == '\n' then "\r\n" else [s[0]]) + ToCrlf(s[1..])
  }

  lemma {:induction false} NormalizeIsIdentity(s: string)
    requires '\r' !in s
    ensures Normalize(s) == s
  {
    if s != "" {
      NormalizeIsIdentity(s[1..]);
    }
  }

  lemma {:induction false} NormalizeUndoesCrlf(s: string)
    requires '\r' !in s
    ensures Normalize(ToCrlf(s)) == s
  {
    if s != "" {
      NormalizeUndoesCrlf(s[1..]);
      var rest := ToCrlf(s[1..]);
      if s[0] == '\n' {
        assert ToCrlf(s)[2..] == rest;
      } else {
        assert ToCrlf(s)[1..] == rest;
      }
    }
  }

  /** Normalizing is local, as long as no `\r` ends the first part. */
  lemma {:induction false} NormalizeAppend(a: string, b: string)
    requires a == "" || a[|a| - 1] != '\r'
    ensures Normalize(a + b) == Normalize(a) + Normalize(b)
    decreases |a|
  {
    if a == "" {
      assert a + b == b;
    } else {
      var k := if a[0] == '\r' && |a| > 1 && a[1] == '\n' then 2 else 1;
      var c := if a[0] == '\r' then '\n' else a[0];
      NormalizeAppend(a[k..], b);
      NormalizeFirst(a, k, c);
      NormalizeFirst(a + b, k, c);
      DropConcat(a, b, k);
      ConcatAssociates([c], Normalize(a[k..]), Normalize(b));
    }
  }

  lemma DropConcat<T>(a: seq<T>, b: seq<T>, k: nat)
    requires k <= |a|
    ensures (a + b)[k..] == a[k..] + b
  {
  }

  lemma ConcatAssociates<T>(a: seq<T>, b: seq<T>, c: seq<T>)
    ensures a + (b + c) == (a + b) + c
  {
  }

  lemma NormalizeFirst(s: string, k: nat, c: char)
    requires s != "" && c == (if s[0] == '\r' then '\n' else s[0])
    requires k == if s[0] == '\r' && |s| > 1 && s[1] == '\n' then 2 else 1
    ensures Normalize(s) == [c] + Normalize(s[k..])
  {
  }
}
