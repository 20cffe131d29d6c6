/** The approval gate: what runs through the plan-ready door is the plan that was
    approved, although comments can be edited at any time. */
module Approval {
  import opened Wrappers
  import opened Text
  import opened PlanComment
  import opened PlanRoundTrip

  /** A comment as the API lists it; a time stamp may be missing or unreadable. */
  datatype Listed = Listed(own: bool, body: string, created: Option<nat>, updated: Option<nat>)

  predicate Contains(s: string, part: string) {
    exists i | 0 <= i <= |s| :: part <= s[i..]
  }

  predicate IsPlan(own: bool, body: string) {
    own && Contains(body, PLAN_COMMENT_MARKER)
  }

  /** What the timeline says about the approving label: who applied it last, when. */
  datatype Approver = Approver(verified: bool, at: Option<nat>)

  /** The last plan comment of our own login. */
  predicate Latest(cs: seq<Listed>, i: nat) {
    i < |cs| && IsPlan(cs[i].own, cs[i].body) && forall j | i < j < |cs| :: !IsPlan(cs[j].own, cs[j].body)
  }

  method FindOwnPlanComment(cs: seq<Listed>) returns (found: Option<nat>)
    ensures found.Some? ==> Latest(cs, found.value)
    ensures found.None? ==> forall c | c in cs :: !IsPlan(c.own, c.body)
  {
    found := None;
    for i := 0 to |cs|
      invariant found.Some? ==> found.value < i && IsPlan(cs[found.value].own, cs[found.value].body)
      invariant forall j | (if found.Some? then found.value + 1 else 0) <= j < i :: !IsPlan(cs[j].own, cs[j].body)
    {
      if IsPlan(cs[i].own, cs[i].body) {
        found := Some(i);
      }
    }
  }

  /** Strictly newer than the comment and its last edit; unreadable times fail. */
  predicate Covers(a: Approver, c: Listed) {
    a.verified && a.at.Some? && c.created.Some? && c.updated.Some?
    && a.at.value > c.created.value && a.at.value > c.updated.value
  }

  /** The comment whose plan may run now. */
  predicate MayRun(cs: seq<Listed>, requireApproval: bool, labelled: bool, a: Approver, i: nat) {
    Latest(cs, i) && (requireApproval ==> labelled && Covers(a, cs[i]))
  }

  /** Where approval is asked for, nothing passes without the label on the issue, a
      verified hand that put it there, and a time later than both of the comment. */
  method Gate(cs: seq<Listed>, requireApproval: bool, labelled: bool, a: Approver) returns (source: Option<nat>)
    ensures requireApproval && source.Some? ==>
              && labelled && a.verified && a.at.Some? && source.value < |cs|
              && cs[source.value].created.Some? && cs[source.value].created.value < a.at.value
              && cs[source.value].updated.Some? && cs[source.value].updated.value < a.at.value
    ensures forall i | 0 <= i < |cs| && Latest(cs, i) && labelled && a.verified && a.at.Some?
                       && cs[i].created.Some? && cs[i].created.value < a.at.value
                       && cs[i].updated.Some? && cs[i].updated.value < a.at.value :: source == Some(i)
    ensures !requireApproval ==> (source.Some? <==> exists c :: c in cs && IsPlan(c.own, c.body))
    ensures source.Some? ==> MayRun(cs, requireApproval, labelled, a, source.value)
    ensures source.None? ==> forall i :: !MayRun(cs, requireApproval, labelled, a, i)
  {
    source := FindOwnPlanComment(cs);
    if source.Some? && requireApproval && (!labelled || !Covers(a, cs[source.value])) {
      forall i: nat ensures !MayRun(cs, requireApproval, labelled, a, i) {
        if Latest(cs, i) {
          OneLatest(cs, i, source.value);
        }
      }
      source := None;
    }
  }

  lemma OneLatest(cs: seq<Listed>, i: nat, j: nat)
    requires Latest(cs, i) && Latest(cs, j)
    ensures i == j
  {
  }

  /** What goes into the queue: nothing, a plan set for the compiler, or a plan. */
  datatype Queued = Nobody | PlanSet(body: string) | Plan(body: string)

  /** With plan sets enabled, a block of that kind comes first. */
  function WhatRuns(planSets: bool, text: string): Queued {
    if planSets && FencedBody(text, PLAN_SET_FENCE).Some? then PlanSet(FencedBody(text, PLAN_SET_FENCE).value)
    else if PlanBody(text).Some? then Plan(PlanBody(text).value)
    else Nobody
  }

  method ReadBody(planSets: bool, text: string) returns (run: Queued)
    ensures run == WhatRuns(planSets, text)
  {
    if planSets {
      var set_ := ExtractFencedBlock(text, PLAN_SET_FENCE);
      if set_.Some? {
        return PlanSet(set_.value);
      }
    }
    var plan := ExtractPlanBody(text);
    run := if plan.Some? then Plan(plan.value) else Nobody;
  }

  /** The door: the body to queue, read from the one comment that may run. */
  method PlanReadyDoor(cs: seq<Listed>, planSets: bool, requireApproval: bool, labelled: bool, a: Approver)
    returns (run: Queued, source: Option<nat>)
    ensures source.Some? ==>
              MayRun(cs, requireApproval, labelled, a, source.value) && run == WhatRuns(planSets, cs[source.value].body)
    ensures source.None? ==> run == Nobody && forall i :: !MayRun(cs, requireApproval, labelled, a, i)
    ensures requireApproval && !labelled ==> run == Nobody
  {
    run := Nobody;
    source := Gate(cs, requireApproval, labelled, a);
    if source.Some? {
      run := ReadBody(planSets, cs[source.value].body);
    }
  }
}
