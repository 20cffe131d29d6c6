/** When there is a plan comment at all: its size, and the limit. */
module CommentSize {
  import opened Wrappers
  import opened Text
  import opened Fences
  import opened PlanComment

  lemma {:induction false} Utf16Adds(a: string, b: string)
    ensures Utf16Length(a + b) == Utf16Length(a) + Utf16Length(b)
  {
    if a == "" {
      assert a + b == b;
    } else {
      Utf16Adds(a[1..], b);
      assert (a + b)[1..] == a[1..] + b;
    }
  }

  /** A line and what follows it. */
  lemma LineAdds(a: string, b: string)
    ensures Utf16Length(a + "\n" + b) == Utf16Length(a) + 1 + Utf16Length(b)
  {
    Utf16Adds(a + "\n", b);
    Utf16Adds(a, "\n");
    assert Utf16Length("\n") == 1;
  }

  lemma {:induction false} PlainLength(s: string)
    requires forall i | 0 <= i < |s| :: s[i] as int < 0x1_0000
    ensures Utf16Length(s) == |s|
  {
    if s != "" {
      PlainLength(s[1..]);
    }
  }

  /** Characters beyond the basic plane are two code units each. */
  lemma {:induction false} WideLength(s: string)
    requires forall i | 0 <= i < |s| :: s[i] as int >= 0x1_0000
    ensures Utf16Length(s) == 2 * |s|
  {
    if s != "" {
      WideLength(s[1..]);
    }
  }

  lemma HeadLength(lead: string, fence: string, tag: string)
    ensures Utf16Length(Head(lead, fence, tag))
         == Utf16Length(PLAN_COMMENT_MARKER) + Utf16Length(lead) + Utf16Length(fence) + Utf16Length(tag) + 3
  {
    LineAdds(PLAN_COMMENT_MARKER, lead + "\n" + ("" + "\n" + (fence + tag)));
    LineAdds(lead, "" + "\n" + (fence + tag));
    LineAdds("", fence + tag);
    Utf16Adds(fence, tag);
  }

  lemma TailLength(fence: string, trailer: string)
    ensures Utf16Length(Tail(fence, trailer)) == Utf16Length(fence) + Utf16Length(trailer) + 3
  {
    LineAdds(fence, "" + "\n" + (trailer + "\n" + ""));
    LineAdds("", trailer + "\n" + "");
    LineAdds(trailer, "");
  }

  lemma TextLength(body: string, tag: string, opts: CommentOptions)
    ensures Utf16Length(PlanCommentText(body, tag, opts))
         == Utf16Length(PLAN_COMMENT_MARKER) + Utf16Length(Lead(opts)) + Utf16Length(tag) + Utf16Length(body)
            + Utf16Length(Trailer(opts)) + 2 * FenceLength(body) + 8
  {
    var fence := Ticks(FenceLength(body));
    PlainLength(fence);
    HeadLength(Lead(opts), fence, tag);
    TailLength(fence, Trailer(opts));
    LineAdds(Head(Lead(opts), fence, tag), body + "\n" + Tail(fence, Trailer(opts)));
    LineAdds(body, Tail(fence, Trailer(opts)));
  }

  lemma Limit(body: string, tag: string, opts: CommentOptions)
    ensures BuildPlanComment(body, tag, opts).Some? <==> Utf16Length(PlanCommentText(body, tag, opts)) <= 60_000
    ensures BuildPlanComment(body, tag, opts).Some? ==>
              BuildPlanComment(body, tag, opts).value == PlanCommentText(body, tag, opts)
  {
  }

  /** The fence is longer than any run of backticks in the plan, and at least four. */
  function FenceOf(body: string): nat {
    if LongestRun(Split(body)) >= 4 then LongestRun(Split(body)) + 1 else 4
  }

  /** There is a comment exactly if the plan, its two fences, the wording, the marker
      and eight line breaks come to at most 60,000 code units: below the 65,536 that
      GitHub takes. */
  lemma CommentFitsIff(body: string, tag: string, opts: CommentOptions)
    ensures BuildPlanComment(body, tag, opts).Some?
       <==> Utf16Length(body) + 2 * FenceOf(body) + Utf16Length(Lead(opts)) + Utf16Length(tag)
            + Utf16Length(Trailer(opts)) + Utf16Length(PLAN_COMMENT_MARKER) + 8 <= 60_000
    ensures BuildPlanComment(body, tag, opts).Some? ==> Utf16Length(BuildPlanComment(body, tag, opts).value) < 65_536
  {
    Limit(body, tag, opts);
    TextLength(body, tag, opts);
    assert FenceOf(body) == FenceLength(body);
  }
}
