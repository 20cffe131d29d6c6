/** The bridge submits before it labels: why a crash in between does not run a
    ticket twice, and what the order of its two directory scans is good for. */
module BridgeSweep {

  /** The bridge working on one issue: idle; found nothing in the inbox; found
      nothing in processing either; ticket queued, label still to come. */
  datatype Stage = Idle | InboxEmpty | BothEmpty | Submitted

  /** Tickets of the issue's id in either directory, submissions and ends so far,
      and whether the lifecycle label keeps the issue from being swept. */
  datatype State = State(stage: Stage, inbox: nat, processing: nat, submitted: nat, ended: nat, marked: bool)

  datatype Action =
    | ScanInbox | ScanProcessing | Submit
    | Mark(landed: bool)
    | Crash
    | Claim | Requeue | End
    | Recycle

  predicate Enabled(s: State, a: Action) {
    match a
    case ScanInbox => s.stage.Idle? && !s.marked
    case ScanProcessing => s.stage.InboxEmpty?
    case Submit => s.stage.BothEmpty?
    case Mark(_) => s.stage.Submitted?
    case Crash => true
    case Claim => s.inbox > 0
    case Requeue => s.processing > 0
    case End => s.processing > 0
    case Recycle => true
  }

  function After(s: State, a: Action): State
    requires Enabled(s, a)
  {
    match a
    case ScanInbox => s.(stage := if s.inbox > 0 then Submitted else InboxEmpty)
    case ScanProcessing => s.(stage := if s.processing > 0 then Submitted else BothEmpty)
    case Submit =>
      // a ticket of that name in the inbox refuses the submission
      if s.inbox > 0 then s.(stage := Submitted)
      else s.(stage := Submitted, inbox := 1, submitted := s.submitted + 1)
    case Mark(landed) => s.(stage := Idle, marked := s.marked || landed)
    case Crash => s.(stage := Idle)
    case Claim => s.(inbox := s.inbox - 1, processing := s.processing + 1)
    case Requeue => s.(inbox := s.inbox + 1, processing := s.processing - 1)
    case End => s.(processing := s.processing - 1, ended := s.ended + 1)
    case Recycle => s.(marked := false)
  }

  /** The scans run without a pause in one process, so that no requeue falls
      between them; claims may. */
  predicate Undisturbed(s: State, a: Action) {
    a.Requeue? ==> !s.stage.InboxEmpty? && !s.stage.BothEmpty?
  }

  predicate IsRun(s: State, run: seq<Action>)
    decreases run
  {
    run == [] || (Enabled(s, run[0]) && IsRun(After(s, run[0]), run[1..]))
  }

  predicate IsUndisturbed(s: State, run: seq<Action>)
    requires IsRun(s, run)
    decreases run
  {
    run == [] || (Undisturbed(s, run[0]) && IsUndisturbed(After(s, run[0]), run[1..]))
  }

  function Final(s: State, run: seq<Action>): State
    requires IsRun(s, run)
    decreases run
  {
    if run == [] then s else Final(After(s, run[0]), run[1..])
  }

  /** At most one ticket in flight, and the scans found what is still so. */
  predicate Good(s: State) {
    && s.inbox + s.processing <= 1 && s.submitted == s.ended + s.inbox + s.processing
    && (s.stage.InboxEmpty? ==> s.inbox == 0)
    && (s.stage.BothEmpty? ==> s.inbox == 0 && s.processing == 0)
  }

  /** Any sweeps, crashes, lost label swaps, claims, requeues and recycled issues:
      never two tickets at once, and every submission but the one in flight has
      come to its end. */
  lemma {:induction false} AtMostOneInFlight(s: State, run: seq<Action>)
    requires Good(s) && IsRun(s, run) && IsUndisturbed(s, run)
    ensures Good(Final(s, run))
    decreases run
  {
    if run != [] {
      AtMostOneInFlight(After(s, run[0]), run[1..]);
    }
  }

  /** From the start of an issue on. */
  lemma {:induction false} NeverTwoInFlight(s: State, run: seq<Action>, t: State)
    requires s.stage.Idle? && s.inbox == s.processing == s.submitted == s.ended == 0
    requires IsRun(s, run) && IsUndisturbed(s, run) && t == Final(s, run)
    ensures t.inbox + t.processing <= 1 && t.submitted == t.ended + t.inbox + t.processing
  {
    AtMostOneInFlight(s, run);
  }

  /** An issue gets its label only for a ticket, whatever is requeued when. */
  lemma {:induction false} LabelledHasTicket(s: State, run: seq<Action>)
    requires s.submitted == s.ended + s.inbox + s.processing && IsRun(s, run)
    requires s.marked || s.stage.Submitted? ==> s.submitted > 0
    ensures Final(s, run).marked || Final(s, run).stage.Submitted? ==> Final(s, run).submitted > 0
    decreases run
  {
    if run != [] {
      LabelledHasTicket(After(s, run[0]), run[1..]);
    }
  }

  /** A recycled issue with no ticket left is submitted once more. */
  lemma RecycledIsResubmitted(s: State)
    requires s.stage.Idle? && s.inbox == s.processing == 0
    ensures var run := [Recycle, ScanInbox, ScanProcessing, Submit];
            IsRun(s, run) && Final(s, run) == State(Submitted, 1, 0, s.submitted + 1, s.ended, false)
  {
  }

  /** A labelled issue is left alone until it is recycled. */
  lemma {:induction false} LabelledIsLeftAlone(s: State, run: seq<Action>)
    requires s.marked && s.stage.Idle? && IsRun(s, run) && Recycle !in run
    ensures Final(s, run).submitted == s.submitted && Final(s, run).marked && Final(s, run).stage.Idle?
    decreases run
  {
    if run != [] {
      assert run[0] in run;
      LabelledIsLeftAlone(After(s, run[0]), run[1..]);
    }
  }

  /** Requeues between the scans do no harm by themselves: a ticket of that name in the
      inbox refuses the submission. It takes a claim behind the second scan as well. */
  predicate Unclaimed(s: State, a: Action) {
    a.Claim? ==> !s.stage.BothEmpty?
  }

  predicate IsUnclaimed(s: State, run: seq<Action>)
    requires IsRun(s, run)
    decreases run
  {
    run == [] || (Unclaimed(s, run[0]) && IsUnclaimed(After(s, run[0]), run[1..]))
  }

  predicate Sound(s: State) {
    && s.inbox + s.processing <= 1 && s.submitted == s.ended + s.inbox + s.processing
    && (s.stage.BothEmpty? ==> s.processing == 0)
  }

  lemma {:induction false} AtMostOneUnlessClaimed(s: State, run: seq<Action>)
    requires Sound(s) && IsRun(s, run) && IsUnclaimed(s, run)
    ensures Sound(Final(s, run))
    decreases run
  {
    if run != [] {
      AtMostOneUnlessClaimed(After(s, run[0]), run[1..]);
    }
  }

  /** So two tickets are never in flight unless a claim falls behind both scans. */
  lemma {:induction false} NeverTwoUnlessClaimed(s: State, run: seq<Action>, t: State)
    requires s.stage.Idle? && s.inbox == s.processing == s.submitted == s.ended == 0
    requires IsRun(s, run) && IsUnclaimed(s, run) && t == Final(s, run)
    ensures t.inbox + t.processing <= 1 && t.submitted == t.ended + t.inbox + t.processing
  {
    AtMostOneUnlessClaimed(s, run);
  }

  /** After a crash between the submission and the label the next sweep marks the
      issue and does not submit again, wherever the ticket is by then. */
  lemma SweepAfterCrashOnlyMarks(s: State)
    requires Good(s) && s.stage.Submitted? && !s.marked && s.inbox + s.processing == 1
    ensures var run := [Crash, ScanInbox] + (if s.inbox == 0 then [ScanProcessing] else []) + [Mark(true)];
            IsRun(s, run) && Final(s, run) == s.(stage := Idle, marked := true)
  {
    var c := After(s, Crash);
    var i := After(c, ScanInbox);
    if s.inbox == 0 {
      var run := [Crash, ScanInbox, ScanProcessing, Mark(true)];
      assert [Crash, ScanInbox] + [ScanProcessing] + [Mark(true)] == run;
      var p := After(i, ScanProcessing);
      assert run[1..] == [ScanInbox, ScanProcessing, Mark(true)] && run[1..][1..] == [ScanProcessing, Mark(true)];
      assert run[1..][1..][1..] == [Mark(true)] && run[1..][1..][1..][1..] == [];
      assert IsRun(p, [Mark(true)]) && Final(p, [Mark(true)]) == After(p, Mark(true));
      assert IsRun(i, [ScanProcessing, Mark(true)]);
      assert Final(i, [ScanProcessing, Mark(true)]) == Final(p, [Mark(true)]);
      assert IsRun(c, run[1..]) && Final(c, run[1..]) == Final(i, run[1..][1..]);
    } else {
      var run := [Crash, ScanInbox, Mark(true)];
      assert [Crash, ScanInbox] + [] + [Mark(true)] == run;
      assert run[1..] == [ScanInbox, Mark(true)] && run[1..][1..] == [Mark(true)] && run[1..][1..][1..] == [];
      assert IsRun(i, [Mark(true)]) && Final(i, [Mark(true)]) == After(i, Mark(true));
      assert IsRun(c, run[1..]) && Final(c, run[1..]) == Final(i, run[1..][1..]);
    }
  }

  /** A requeue between the scans followed by a claim slips past both of them. */
  lemma RequeueBetweenScans(s: State)
    requires Good(s) && s.stage.Idle? && !s.marked && s.processing == 1
    ensures exists run | IsRun(s, run) :: Final(s, run).processing + Final(s, run).inbox == 2
  {
    var a := After(s, ScanInbox);
    var b := After(a, Requeue);
    var c := After(b, ScanProcessing);
    var d := After(c, Claim);
    var e := After(d, Submit);
    var r5: seq<Action> := [Submit];
    assert r5[1..] == [] && IsRun(d, r5) && Final(d, r5) == e;
    var r4 := [Claim] + r5;
    assert r4[1..] == r5 && IsRun(c, r4) && Final(c, r4) == e;
    var r3 := [ScanProcessing] + r4;
    assert r3[1..] == r4 && IsRun(b, r3) && Final(b, r3) == e;
    var r2 := [Requeue] + r3;
    assert r2[1..] == r3 && IsRun(a, r2) && Final(a, r2) == e;
    var r1 := [ScanInbox] + r2;
    assert r1[1..] == r2 && IsRun(s, r1) && Final(s, r1) == e;
  }
}
