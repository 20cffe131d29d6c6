/** What an approval approved: the history of posts, edits and labels behind a
    listing of comments. */
module ApprovalHistory {
  import opened Wrappers
  import opened Text
  import opened PlanComment
  import opened PlanRoundTrip
  import opened PlanSets
  import opened Approval

  datatype Event =
    | Post(own: bool, body: string, at: nat)
    | Edit(which: nat, body: string, at: nat)
    | Label(verified: bool, at: nat)

  /** A comment on the server. */
  datatype Comment = Comment(own: bool, body: string, created: nat, updated: nat)

  /** Comments are listed in the order in which they were posted; an edit changes
      the body and the time of the last update. */
  function Next(cs: seq<Comment>, e: Event): seq<Comment> {
    match e
    case Post(own, body, at) => cs + [Comment(own, body, at, at)]
    case Edit(i, body, at) => if i < |cs| then cs[i := cs[i].(body := body, updated := at)] else cs
    case Label(_, _) => cs
  }

  /** The comments after the first `n` events. */
  function After(es: seq<Event>, n: nat): seq<Comment>
    requires n <= |es|
  {
    if n == 0 then [] else Next(After(es, n - 1), es[n - 1])
  }

  ghost predicate InTimeOrder(es: seq<Event>) {
    forall i, j | 0 <= i < j < |es| :: es[i].at <= es[j].at
  }

  lemma {:induction false} CommentsOnlyGrow(es: seq<Event>, k: nat, n: nat)
    requires k <= n <= |es|
    ensures |After(es, k)| <= |After(es, n)|
    ensures forall i | 0 <= i < |After(es, k)| ::
              After(es, n)[i].own == After(es, k)[i].own
              && After(es, n)[i].created == After(es, k)[i].created
    decreases n
  {
    if k < n {
      CommentsOnlyGrow(es, k, n - 1);
    }
  }

  /** Nothing is dated after the events so far. */
  lemma {:induction false} DatesAreEvents(es: seq<Event>, n: nat, at: nat)
    requires n <= |es| && forall i | 0 <= i < n :: es[i].at <= at
    ensures forall c | c in After(es, n) :: c.created <= at && c.updated <= at
    decreases n
  {
    if n > 0 {
      DatesAreEvents(es, n - 1, at);
    }
  }

  /** What is posted from the k-th event on is dated accordingly. */
  lemma {:induction false} PostedLater(es: seq<Event>, k: nat, n: nat, i: nat)
    requires InTimeOrder(es) && k <= n <= |es| && k < |es|
    requires |After(es, k)| <= i < |After(es, n)|
    ensures After(es, n)[i].created >= es[k].at
    decreases n
  {
    if n > k {
      if i < |After(es, n - 1)| {
        PostedLater(es, k, n - 1, i);
      }
    }
  }

  /** Some event from the k-th on, before the n-th, edits the i-th comment. */
  ghost predicate Edited(es: seq<Event>, k: nat, n: nat, i: nat)
    requires n <= |es|
  {
    exists m :: k <= m < n && es[m].Edit? && es[m].which == i
  }

  /** A comment that is there and not edited since is as it was; an edit is dated. */
  lemma {:induction false} UneditedSince(es: seq<Event>, k: nat, n: nat, i: nat)
    requires InTimeOrder(es) && k <= n <= |es| && k < |es| && i < |After(es, k)|
    ensures i < |After(es, n)|
    ensures !Edited(es, k, n, i) ==> After(es, n)[i] == After(es, k)[i]
    ensures Edited(es, k, n, i) ==> After(es, n)[i].updated >= es[k].at
    decreases n
  {
    if n > k {
      UneditedSince(es, k, n - 1, i);
      assert Edited(es, k, n, i) <==> Edited(es, k, n - 1, i) || (es[n - 1].Edit? && es[n - 1].which == i);
    }
  }

  ghost predicate PlanAt(cs: seq<Comment>, i: nat) {
    i < |cs| && IsPlan(cs[i].own, cs[i].body)
  }

  ghost predicate LatestPlan(cs: seq<Comment>, i: nat) {
    PlanAt(cs, i) && forall j: nat | PlanAt(cs, j) :: j <= i
  }

  lemma OneLatest(cs: seq<Comment>, i: nat, j: nat)
    requires LatestPlan(cs, i) && LatestPlan(cs, j)
    ensures i == j
  {
  }

  /** What a listing shows of the history; stamps may be unreadable. */
  ghost predicate Shows(cs: seq<Listed>, es: seq<Event>) {
    && |cs| == |After(es, |es|)|
    && forall i | 0 <= i < |cs| ::
         && cs[i].own == After(es, |es|)[i].own && cs[i].body == After(es, |es|)[i].body
         && (cs[i].created.Some? ==> cs[i].created.value == After(es, |es|)[i].created)
         && (cs[i].updated.Some? ==> cs[i].updated.value == After(es, |es|)[i].updated)
  }

  /** A listing of `es` in which the door reads `source` under the k-th event. */
  ghost predicate Reads(cs: seq<Listed>, es: seq<Event>, k: nat, source: nat) {
    && InTimeOrder(es) && k < |es| && es[k].Label? && Shows(cs, es)
    && Latest(cs, source) && Covers(Approver(es[k].verified, Some(es[k].at)), cs[source])
  }

  /** The comment the door reads is, word for word, what it was when the approving
      label was applied. */
  lemma ApprovedIsRead(cs: seq<Listed>, es: seq<Event>, k: nat, source: nat)
    requires Reads(cs, es, k, source)
    ensures es[k].verified && PlanAt(After(es, k), source)
    ensures After(es, k)[source].body == cs[source].body
  {
    if source >= |After(es, k)| {
      PostedLater(es, k, |es|, source);
    }
    UneditedSince(es, k, |es|, source);
  }

  // ------------------------------------------------------------ was it the latest plan then?

  /** The m-th event, after the label, takes away a plan behind `source` that stood
      since before the label. */
  ghost predicate Retracts(es: seq<Event>, k: nat, source: nat, m: nat)
    requires k < m < |es|
  {
    && es[m].Edit? && es[m].which > source
    && (forall n | k <= n <= m :: PlanAt(After(es, n), es[m].which))
    && !PlanAt(After(es, m + 1), es[m].which)
  }

  ghost predicate Retracted(es: seq<Event>, k: nat, source: nat) {
    exists m :: k < m < |es| && Retracts(es, k, source, m)
  }

  /** A plan at the label that is none at the end was edited away in between. */
  lemma {:induction false} WasEditedAway(es: seq<Event>, k: nat, n: nat, source: nat, j: nat)
    requires k < n <= |es| && es[k].Label? && j > source
    requires PlanAt(After(es, k), j) && !PlanAt(After(es, n), j)
    requires forall i | k <= i < n :: PlanAt(After(es, i), j)
    ensures Retracted(es, k, source)
  {
    assert Retracts(es, k, source, n - 1);
  }

  /** The first moment from `k` on at which `j` is no plan. */
  lemma {:induction false} FirstLoss(es: seq<Event>, k: nat, n: nat, j: nat) returns (m: nat)
    requires k < n <= |es| && PlanAt(After(es, k), j) && !PlanAt(After(es, n), j)
    ensures k < m <= n && !PlanAt(After(es, m), j) && forall i | k <= i < m :: PlanAt(After(es, i), j)
    decreases n
  {
    if i :| k < i < n && !PlanAt(After(es, i), j) {
      m := FirstLoss(es, k, i, j);
    } else {
      m := n;
    }
  }

  /** The comment read was also the latest plan at the label, exactly unless a later
      plan was edited away since. */
  lemma LatestUnlessRetracted(cs: seq<Listed>, es: seq<Event>, k: nat, source: nat)
    requires Reads(cs, es, k, source)
    ensures LatestPlan(After(es, k), source) <==> !Retracted(es, k, source)
  {
    ApprovedIsRead(cs, es, k, source);
    forall j: nat | j > source && PlanAt(After(es, k), j) ensures Retracted(es, k, source) {
      CommentsOnlyGrow(es, k, |es|);
      assert !IsPlan(cs[j].own, cs[j].body);
      var m := FirstLoss(es, k, |es|, j);
      WasEditedAway(es, k, m, source, j);
    }
    if m :| k < m < |es| && Retracts(es, k, source, m) {
      assert PlanAt(After(es, k), es[m].which);
    }
  }

  /** What a reader of the listing can check: every own comment behind the source
      was posted after the label or not updated since. */
  predicate Undisturbed(cs: seq<Listed>, source: nat, at: nat) {
    forall j | source < j < |cs| && cs[j].own ::
      || (cs[j].created.Some? && cs[j].created.value > at)
      || (cs[j].updated.Some? && cs[j].updated.value < at)
  }

  /** Some own comment behind the source, there at the label, was edited after it. */
  ghost predicate EditedLater(es: seq<Event>, k: nat, source: nat)
    requires k <= |es|
  {
    exists j: nat :: j > source && j < |After(es, k)| && After(es, k)[j].own && Edited(es, k, |es|, j)
  }

  /** The times of the listing decide it, up to events of the same second. */
  lemma TimesTell(cs: seq<Listed>, es: seq<Event>, k: nat, source: nat)
    requires Reads(cs, es, k, source)
    ensures Undisturbed(cs, source, es[k].at) ==> !EditedLater(es, k, source)
    ensures (exists j | source < j < |cs| && cs[j].own ::
               After(es, |es|)[j].created < es[k].at < After(es, |es|)[j].updated) ==> EditedLater(es, k, source)
  {
    DatesAreEvents(es, k, es[k].at);
    CommentsOnlyGrow(es, k, |es|);
    if j: nat :| j > source && j < |After(es, k)| && After(es, k)[j].own && Edited(es, k, |es|, j) {
      UneditedSince(es, k, |es|, j);
      assert After(es, k)[j] in After(es, k);
      assert cs[j].own;
    }
    if j :| source < j < |cs| && cs[j].own && After(es, |es|)[j].created < es[k].at < After(es, |es|)[j].updated {
      if j >= |After(es, k)| {
        PostedLater(es, k, |es|, j);
      } else {
        UneditedSince(es, k, |es|, j);
        assert After(es, k)[j] in After(es, k);
      }
    }
  }

  /** The times of the own comments behind the source are there, and none is that of the
      label. */
  predicate Telling(cs: seq<Listed>, source: nat, at: nat) {
    forall j | source < j < |cs| && cs[j].own ::
      cs[j].created.Some? && cs[j].created.value != at && cs[j].updated.Some? && cs[j].updated.value != at
  }

  /** Such times tell exactly. */
  lemma TimesDecide(cs: seq<Listed>, es: seq<Event>, k: nat, source: nat)
    requires Reads(cs, es, k, source) && Telling(cs, source, es[k].at)
    ensures Undisturbed(cs, source, es[k].at) <==> !EditedLater(es, k, source)
  {
    TimesTell(cs, es, k, source);
  }

  predicate RewordedEvent(e: Event, e': Event) {
    match e
    case Post(own, _, at) => e'.Post? && e'.own == own && e'.at == at
    case Edit(j, _, at) => e'.Edit? && e'.which == j && e'.at == at
    case Label(_, _) => e' == e
  }

  /** The same events with other words. */
  predicate Reworded(es: seq<Event>, es': seq<Event>) {
    |es| == |es'| && forall i | 0 <= i < |es| :: RewordedEvent(es[i], es'[i])
  }

  lemma {:induction false} RewordedAlike(es: seq<Event>, es': seq<Event>, n: nat)
    requires Reworded(es, es') && n <= |es|
    ensures |After(es, n)| == |After(es', n)|
    ensures forall i | 0 <= i < |After(es, n)| :: After(es, n)[i].own == After(es', n)[i].own
    decreases n
  {
    if n > 0 {
      RewordedAlike(es, es', n - 1);
    }
  }

  /** Without such an edit the comment read was the latest plan, whatever was said. */
  lemma UneditedIsLatest(cs: seq<Listed>, es: seq<Event>, k: nat, source: nat)
    requires Reads(cs, es, k, source) && !EditedLater(es, k, source)
    ensures LatestPlan(After(es, k), source)
  {
    ApprovedIsRead(cs, es, k, source);
    CommentsOnlyGrow(es, k, |es|);
    assert forall j: nat | source < j < |cs| :: !IsPlan(cs[j].own, cs[j].body);
    forall j: nat | PlanAt(After(es, k), j) ensures j <= source {
      UneditedSince(es, k, |es|, j);
    }
  }

  /** The event, in case it writes the j-th of the comments, with other words. */
  function Saying(cs: seq<Comment>, e: Event, j: nat, text: string): Event {
    match e
    case Post(own, _, at) => if |cs| == j then Post(own, text, at) else e
    case Edit(which, _, at) => if which == j then Edit(j, text, at) else e
    case Label(_, _) => e
  }

  function Patched(cs: seq<Comment>, j: nat, text: string): seq<Comment> {
    if j < |cs| then cs[j := cs[j].(body := text)] else cs
  }

  lemma PatchNext(cs: seq<Comment>, e: Event, j: nat, text: string)
    ensures Next(Patched(cs, j, text), Saying(cs, e, j, text)) == Patched(Next(cs, e), j, text)
    ensures e.Edit? && e.which == j ==> Next(Patched(cs, j, text), e) == Next(cs, e)
  {
  }

  /** The i-th event when, until the m-th, the j-th comment has other words. */
  function OtherEvent(es: seq<Event>, m: nat, j: nat, text: string, i: nat): Event
    requires i < |es|
  {
    if i < m then Saying(After(es, i), es[i], j, text) else es[i]
  }

  ghost predicate IsOther(es: seq<Event>, es': seq<Event>, m: nat, j: nat, text: string, i: nat)
    requires i < |es| == |es'|
  {
    es'[i] == OtherEvent(es, m, j, text, i)
  }

  /** From the m-th event on, which edits the comment anyway, nothing is different. */
  lemma {:induction false} OtherwiseIs(es: seq<Event>, es': seq<Event>, m: nat, j: nat, text: string, n: nat)
    requires n <= |es| == |es'| && m < |es| && es[m].Edit? && es[m].which == j
    requires forall i | 0 <= i < n :: IsOther(es, es', m, j, text, i)
    ensures After(es', n) == if n <= m then Patched(After(es, n), j, text) else After(es, n)
    decreases n
  {
    if n > 0 {
      OtherwiseIs(es, es', m, j, text, n - 1);
      assert IsOther(es, es', m, j, text, n - 1);
      OneLater(es, n);
      OneLater(es', n);
      PatchNext(After(es, n - 1), es[n - 1], j, text);
    }
  }

  lemma OneLater(es: seq<Event>, n: nat)
    requires 0 < n <= |es|
    ensures After(es, n) == Next(After(es, n - 1), es[n - 1])
  {
  }

  lemma IsReworded(es: seq<Event>, es': seq<Event>, m: nat, j: nat, text: string)
    requires |es| == |es'| && forall i | 0 <= i < |es| :: IsOther(es, es', m, j, text, i)
    ensures Reworded(es, es')
  {
    forall i | 0 <= i < |es| ensures RewordedEvent(es[i], es'[i]) {
      assert IsOther(es, es', m, j, text, i);
    }
  }

  /** Some text that is a plan. */
  lemma SomePlan() returns (text: string)
    ensures IsPlan(true, text)
  {
    text := PLAN_COMMENT_MARKER;
    assert text <= text[0..];
  }

  /** With one, the words before it could have been a plan: nothing in the listing
      would tell. */
  lemma EditedMayBeRetracted(cs: seq<Listed>, es: seq<Event>, k: nat, source: nat) returns (es': seq<Event>)
    requires Reads(cs, es, k, source) && EditedLater(es, k, source)
    ensures Reworded(es, es') && Shows(cs, es') && !LatestPlan(After(es', k), source)
  {
    var j: nat :| j > source && j < |After(es, k)| && After(es, k)[j].own && Edited(es, k, |es|, j);
    var m :| k <= m < |es| && es[m].Edit? && es[m].which == j;
    var text := SomePlan();
    es' := seq(|es|, i requires 0 <= i < |es| => OtherEvent(es, m, j, text, i));
    IsReworded(es, es', m, j, text);
    OtherwiseIs(es, es', m, j, text, |es|);
    OtherwiseIs(es, es', m, j, text, k);
    assert PlanAt(After(es', k), j);
  }

  /** Exactly when the listing vouches for it: the comment read was the latest plan
      at the label in every history of the same shape that the listing may show, if
      and only if no own comment behind it was edited after the label. */
  lemma VouchedForIff(cs: seq<Listed>, es: seq<Event>, k: nat, source: nat)
    requires Reads(cs, es, k, source)
    ensures (forall es': seq<Event> | Reworded(es, es') && Shows(cs, es') :: LatestPlan(After(es', k), source))
       <==> !EditedLater(es, k, source)
  {
    if EditedLater(es, k, source) {
      var es' := EditedMayBeRetracted(cs, es, k, source);
      assert Reworded(es, es') && Shows(cs, es') && !LatestPlan(After(es', k), source);
    } else {
      forall es': seq<Event> | Reworded(es, es') && Shows(cs, es') ensures LatestPlan(After(es', k), source) {
        ShapeIsKept(es, es', k, source);
        assert InTimeOrder(es') by {
          assert forall i | 0 <= i < |es| :: es'[i].at == es[i].at;
        }
        UneditedIsLatest(cs, es', k, source);
      }
    }
  }

  lemma ShapeIsKept(es: seq<Event>, es': seq<Event>, k: nat, source: nat)
    requires Reworded(es, es') && k <= |es|
    ensures EditedLater(es', k, source) ==> EditedLater(es, k, source)
  {
    RewordedAlike(es, es', k);
    if j: nat :| j > source && j < |After(es', k)| && After(es', k)[j].own && Edited(es', k, |es'|, j) {
      var m :| k <= m < |es'| && es'[m].Edit? && es'[m].which == j;
      assert es[m].Edit? && es[m].which == j;
    }
  }

  // ------------------------------------------------------------ the sweep

  /** What a sweep is given: a listing of the history, and who applied the label when. */
  ghost predicate Given(cs: seq<Listed>, es: seq<Event>, k: nat, a: Approver) {
    && InTimeOrder(es) && k < |es| && es[k].Label? && Shows(cs, es)
    && a.verified == es[k].verified && (a.at.Some? ==> a.at.value == es[k].at)
  }

  /** One sweep through the door in approval mode, over any history of posts, edits
      and labels. */
  method Sweep(cs: seq<Listed>, planSets: bool, labelled: bool, a: Approver, ghost es: seq<Event>, ghost k: nat)
    returns (run: Queued, source: Option<nat>)
    requires Given(cs, es, k, a)
    ensures source.None? || !labelled ==> run == Nobody
    ensures source.Some? ==>
              && es[k].verified && PlanAt(After(es, k), source.value)
              && run == WhatRuns(planSets, After(es, k)[source.value].body)
    ensures source.Some? ==> (LatestPlan(After(es, k), source.value) <==> !Retracted(es, k, source.value))
    ensures source.Some? && Undisturbed(cs, source.value, es[k].at) ==> LatestPlan(After(es, k), source.value)
  {
    run, source := PlanReadyDoor(cs, planSets, true, labelled, a);
    if source.Some? {
      assert Reads(cs, es, k, source.value);
      ApprovedIsRead(cs, es, k, source.value);
      LatestUnlessRetracted(cs, es, k, source.value);
      TimesTell(cs, es, k, source.value);
      if !EditedLater(es, k, source.value) {
        UneditedIsLatest(cs, es, k, source.value);
      }
    }
  }

  /** The comment of a plan, as it was posted or after a web edit. */
  ghost predicate IsCommentOf(text: string, plan: string, opts: CommentOptions) {
    && BuildPlanComment(plan, PLAN_FENCE, opts).Some?
    && text in {BuildPlanComment(plan, PLAN_FENCE, opts).value, ToCrlf(BuildPlanComment(plan, PLAN_FENCE, opts).value)}
  }

  /** What a plan amounts to at the door: itself, or, with sets enabled, the set that
      it quotes. */
  function Queues(planSets: bool, plan: string): Queued {
    if planSets && QuotedSet(plan).Some? then PlanSet(QuotedSet(plan).value) else Plan(plan)
  }

  lemma CommentOfPlan(text: string, plan: string, opts: CommentOptions)
    requires OneLine(opts.trigger) && CleanPlan(plan) && IsCommentOf(text, plan, opts)
    ensures Holds(text, plan)
  {
    PlainFences();
    CommentIsCopy(plan, PLAN_FENCE, opts);
    CommentHolds(text, plan, opts);
  }

  lemma CommentSetBody(text: string, plan: string)
    requires Holds(text, plan)
    ensures FencedBody(text, PLAN_SET_FENCE) == QuotedSet(plan)
  {
    QuotedSetIsFound(text, plan);
  }

  lemma CommentPlanBody(text: string, plan: string, opts: CommentOptions)
    requires OneLine(opts.trigger) && CleanPlan(plan) && IsCommentOf(text, plan, opts)
    ensures PlanBody(text) == Some(plan)
  {
    PlanCommentRoundTrip(plan, opts);
  }

  /** What a plan's comment queues, read off the plan. A plan no line of which opens a
      set is queued itself. */
  lemma CommentQueues(text: string, planSets: bool, plan: string, opts: CommentOptions)
    requires OneLine(opts.trigger) && CleanPlan(plan) && IsCommentOf(text, plan, opts)
    ensures WhatRuns(planSets, text) == Queues(planSets, plan)
    ensures QuotesNoSet(plan) ==> Queues(planSets, plan) == Plan(plan)
    ensures Holds(text, plan)
  {
    CommentOfPlan(text, plan, opts);
    CommentSetBody(text, plan);
    CommentPlanBody(text, plan, opts);
    SetIffOpened(plan);
  }

  /** From the planner to the queue: when the latest plan comment at the label was
      that of `plan`, the sweep queues nothing or what the plan amounts to, unless a
      comment behind it was edited away since. */
  method ThePlanRuns(cs: seq<Listed>, planSets: bool, labelled: bool, a: Approver, ghost es: seq<Event>,
                     ghost k: nat, ghost latest: nat, ghost plan: string, ghost opts: CommentOptions)
    returns (run: Queued, source: Option<nat>)
    requires Given(cs, es, k, a) && LatestPlan(After(es, k), latest)
    requires OneLine(opts.trigger) && CleanPlan(plan) && IsCommentOf(After(es, k)[latest].body, plan, opts)
    ensures run != Nobody ==> labelled && source.Some? && es[k].verified
    ensures run == Nobody || Retracted(es, k, source.value) || run == Queues(planSets, plan)
    ensures QuotesNoSet(plan) ==> Queues(planSets, plan) == Plan(plan)
  {
    run, source := Sweep(cs, planSets, labelled, a, es, k);
    if source.Some? && !Retracted(es, k, source.value) {
      OneLatest(After(es, k), source.value, latest);
    }
    CommentQueues(After(es, k)[latest].body, planSets, plan, opts);
  }

  /** Why "unless": two plans, the second edited away after an approval that was
      meant for it; the door then queues the first. */
  lemma RetractedPlanRunsTheOther(first: string, second: string, other: string)
    requires IsPlan(true, first) && IsPlan(true, second) && !IsPlan(true, other)
    ensures var es := [Post(true, first, 1), Post(true, second, 2), Label(true, 3), Edit(1, other, 4)];
            var cs := [Listed(true, first, Some(1), Some(1)), Listed(true, other, Some(2), Some(4))];
            Given(cs, es, 2, Approver(true, Some(3))) && MayRun(cs, true, true, Approver(true, Some(3)), 0)
            && LatestPlan(After(es, 2), 1) && Retracted(es, 2, 0) && !Undisturbed(cs, 0, 3)
  {
    var es := [Post(true, first, 1), Post(true, second, 2), Label(true, 3), Edit(1, other, 4)];
    var cs := [Listed(true, first, Some(1), Some(1)), Listed(true, other, Some(2), Some(4))];
    assert After(es, 0) == [];
    assert After(es, 2) == [Comment(true, first, 1, 1), Comment(true, second, 2, 2)];
    assert After(es, |es|) == [Comment(true, first, 1, 1), Comment(true, other, 2, 4)];
    assert PlanAt(After(es, 3), 1) && !PlanAt(After(es, 4), 1);
    assert Retracts(es, 2, 0, 3);
  }
}
