/** Following a log file: read what is new, carry the unfinished line, start over
    when the file has become smaller. Text is one byte per character. */
module LogTailer {
  import opened Text
  import opened Wrappers

  function NonEmpty(ls: seq<string>): seq<string> {
    if ls == [] then []
    else if ls[0] == "" then NonEmpty(ls[1..])
    else [ls[0]] + NonEmpty(ls[1..])
  }

  lemma {:induction false} NonEmptyConcat(a: seq<string>, b: seq<string>)
    ensures NonEmpty(a + b) == NonEmpty(a) + NonEmpty(b)
  {
    if a == [] {
      assert a + b == b;
    } else {
      NonEmptyConcat(a[1..], b);
      DropConcat(a, b, 1);
      assert (a + b)[0] == a[0];
      ConcatAssociates([a[0]], NonEmpty(a[1..]), NonEmpty(b));
    }
  }

  /** Exactly the empty lines are left out, and nothing changes its place. */
  lemma {:induction false} NonEmptyIs(ls: seq<string>, more: seq<string>)
    ensures "" !in NonEmpty(ls)
    ensures "" !in ls ==> NonEmpty(ls) == ls
    ensures NonEmpty(ls + [""] + more) == NonEmpty(ls + more)
  {
    assert ls + [""] + more == ls + ([""] + more) && ([""] + more)[1..] == more;
    NonEmptyConcat(ls, [""] + more);
    NonEmptyConcat(ls, more);
    NoneIsEmpty(ls);
  }

  lemma {:induction false} NoneIsEmpty(ls: seq<string>)
    ensures "" !in NonEmpty(ls)
    ensures "" !in ls ==> NonEmpty(ls) == ls
  {
    if ls != [] {
      NoneIsEmpty(ls[1..]);
    }
  }

  /** The complete lines of a text, without empty ones, and its unfinished end. */
  function Lines(s: string): seq<string> {
    NonEmpty(Split(s)[..|Split(s)| - 1])
  }

  function Rest(s: string): string {
    Split(s)[|Split(s)| - 1]
  }

  lemma RestIsOneLine(s: string)
    ensures Split(Rest(s)) == [Rest(s)]
  {
    LinesHaveNoLineFeed(s);
    SplitOneLine(Rest(s));
  }

  /** Gluing to a text and gluing to its last line differ by the lines before. */
  lemma GlueLast(x: seq<string>, y: seq<string>)
    requires |x| >= 1 && |y| >= 1
    ensures Glue(x, y) == x[..|x| - 1] + Glue([x[|x| - 1]], y)
    ensures Glue(x, y)[..|Glue(x, y)| - 1]
         == x[..|x| - 1] + Glue([x[|x| - 1]], y)[..|Glue([x[|x| - 1]], y)| - 1]
  {
  }

  /** Carrying the unfinished line is as good as reading everything at once. */
  lemma LinesContinue(s: string, chunk: string)
    ensures Lines(s + chunk) == Lines(s) + Lines(Rest(s) + chunk)
    ensures Rest(s + chunk) == Rest(Rest(s) + chunk)
  {
    SplitAppend(s, chunk);
    SplitAppend(Rest(s), chunk);
    RestIsOneLine(s);
    GlueLast(Split(s), Split(chunk));
    var more := Split(Rest(s) + chunk);
    NonEmptyConcat(Split(s)[..|Split(s)| - 1], more[..|more| - 1]);
  }

  class Tailer {
    var pos: nat
    var carry: string
    var rotated: bool
    /** What has been read of the file the tailer believes it follows, and what
        came out of it. */
    ghost var seen: string
    ghost var told: seq<string>

    ghost predicate Valid()
      reads this
    {
      carry == Rest(seen) && told == Lines(seen)
    }

    /** Starts at the end of the file; a missing file counts as empty. */
    constructor (file: Option<string>)
      ensures Valid() && pos == (if file.Some? then |file.value| else 0) && seen == "" && told == [] && !rotated
    {
      pos := if file.Some? then |file.value| else 0;
      carry, rotated, seen, told := "", false, "", [];
    }

    method Poll(file: Option<string>) returns (lines: seq<string>)
      requires Valid()
      modifies this
      ensures Valid()
      ensures rotated <==> file.Some? && |file.value| < old(pos)
      ensures file.None? ==> lines == [] && pos == old(pos) && seen == old(seen)
      ensures file.Some? ==> pos == |file.value|
      ensures file.Some? && rotated ==> seen == file.value && told == lines
      ensures !rotated ==> told == old(told) + lines
      ensures file.Some? && !rotated ==> seen == old(seen) + file.value[old(pos)..]
    {
      rotated := false;
      lines := [];
      if file.None? { return; }
      var f := file.value;
      if |f| < pos {
        pos, carry, rotated := 0, "", true;
        seen, told := "", [];
      }
      LinesContinue(seen, f[pos..]);
      if |f| <= pos {
        assert f[pos..] == "" && seen + "" == seen;
        RestIsOneLine(seen);
        return;
      }
      var parts := Split(carry + f[pos..]);
      seen := seen + f[pos..];
      pos := |f|;
      carry := parts[|parts| - 1];
      lines := NonEmpty(parts[..|parts| - 1]);
      told := told + lines;
    }
  }

  /** The file grows, the tailer polls. */
  datatype Event = Append(text: string) | Poll

  function Grown(es: seq<Event>): string {
    if es == [] then ""
    else Grown(es[..|es| - 1]) + if es[|es| - 1].Append? then es[|es| - 1].text else ""
  }

  /** What had been appended at the last poll. */
  function Polled(es: seq<Event>): string {
    if es == [] then ""
    else if es[|es| - 1].Poll? then Grown(es)
    else Polled(es[..|es| - 1])
  }

  /** What was polled is a beginning of what was appended. */
  lemma {:induction false} PolledIsPrefix(es: seq<Event>)
    ensures Polled(es) <= Grown(es)
  {
    if es != [] {
      PolledIsPrefix(es[..|es| - 1]);
    }
  }

  lemma ReadsTheRest(file: string, g: string, p: string, seen: string)
    requires p <= g
    ensures |file + g| >= |file| + |p| && (file + g)[|file| + |p|..] == g[|p|..]
    ensures (seen + p) + g[|p|..] == seen + g
  {
  }

  /** Polls of a growing file, from where the tailer is. */
  method PollGrowing(t: Tailer, file: string, es: seq<Event>) returns (out: seq<string>)
    requires t.Valid() && t.pos == |file|
    modifies t
    ensures t.Valid() && t.seen == old(t.seen) + Polled(es) && t.told == old(t.told) + out
  {
    out := [];
    var now := file;
    for i := 0 to |es|
      invariant t.Valid() && t.told == old(t.told) + out && t.seen == old(t.seen) + Polled(es[..i])
      invariant now == file + Grown(es[..i]) && t.pos == |file| + |Polled(es[..i])|
    {
      assert es[..i + 1][..i] == es[..i];
      if es[i].Append? {
        ConcatAssociates(file, Grown(es[..i]), es[i].text);
        now := now + es[i].text;
      } else {
        PolledIsPrefix(es[..i]);
        ReadsTheRest(file, Grown(es[..i]), Polled(es[..i]), old(t.seen));
        var lines := t.Poll(Some(now));
        ConcatAssociates(old(t.told), out, lines);
        out := out + lines;
      }
    }
    assert es[..|es|] == es;
  }

  /** Any appends, any polls: the outputs together are the complete non-empty lines
      of everything appended up to the last poll, the carry is the rest. */
  method Follow(start: string, es: seq<Event>) returns (t: Tailer, out: seq<string>)
    ensures t.Valid() && fresh(t)
    ensures out == Lines(Polled(es)) && t.carry == Rest(Polled(es))
  {
    t := new Tailer(Some(start));
    out := PollGrowing(t, start, es);
    assert "" + Polled(es) == Polled(es);
  }

  /** The same after a rotation the tailer noticed, from the start of the new file;
      it notices exactly when the new file is smaller than what it had read. */
  method FollowRotated(t: Tailer, file: string, es: seq<Event>) returns (noticed: bool, out: seq<string>)
    requires t.Valid()
    modifies t
    ensures t.Valid() && (noticed <==> |file| < old(t.pos))
    ensures noticed ==> out == Lines(file + Polled(es)) && t.carry == Rest(file + Polled(es))
  {
    out := t.Poll(Some(file));
    noticed := t.rotated;
    var more := PollGrowing(t, file, es);
    out := out + more;
  }

  /** The last `n` lines, as asked; asked for none, it gives all of them. */
  function ReadTail(file: Option<string>, n: nat): (lines: seq<string>) {
    if file.None? then []
    else
      var all := NonEmpty(Split(file.value));
      if n == 0 || n >= |all| then all else all[|all| - n..]
  }

  /** The last lines, as many as were asked for and there are. */
  lemma ReadTailGivesLast(file: string, n: nat)
    ensures |ReadTail(Some(file), n)|
         == if n == 0 || n >= |NonEmpty(Split(file))| then |NonEmpty(Split(file))| else n
    ensures exists before: seq<string> :: before + ReadTail(Some(file), n) == NonEmpty(Split(file))
  {
    var all, tail := NonEmpty(Split(file)), ReadTail(Some(file), n);
    assert all[..|all| - |tail|] + tail == all;
  }
}
