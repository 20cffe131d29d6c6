/** Placing tickets of one name into the inbox: any number of submitters, by hard
    link or, where there are none, by a slot file and a rename, and a daemon that
    takes what it sees. */
module Placement {
  import opened Wrappers

  datatype Mode = Link | Slot

  /** Where a submitter is: not started; writing its hidden file; file complete;
      owner of the slot; owner that saw no ticket; ticket placed; refused but still
      owner; returned; refused; crashed. */
  datatype Stage = Away | Writing | Ready | Owner | Clear | Placed | Quitting | Returned | Refused | Crashed

  /** `inbox` is the submitter whose file is visible, `files` what is in each
      submitter's file so far, `claimed` what the daemon took and read. */
  datatype State = State(stages: map<nat, Stage>, files: map<nat, string>, slot: Option<nat>, inbox: Option<nat>,
                         claimed: seq<(nat, string)>)

  const INIT := State(map[], map[], None, None, [])

  datatype Action =
    | Write(p: nat, upTo: nat)
    | TryLink(p: nat)
    | TrySlot(p: nat)
    | Look(p: nat)
    | RenameIn(p: nat)
    | Cleanup(p: nat, unlinked: bool)
    | Fail(p: nat)
    | Crash(p: nat)
    | Claim

  function StageOf(s: State, p: nat): Stage {
    if p in s.stages then s.stages[p] else Away
  }

  function FileOf(s: State, p: nat): string {
    if p in s.files then s.files[p] else ""
  }

  predicate Enabled(s: State, a: Action, content: nat -> string) {
    match a
    case Write(p, n) => StageOf(s, p) in {Away, Writing} && |FileOf(s, p)| <= n <= |content(p)|
    case TryLink(p) => StageOf(s, p).Ready?
    case TrySlot(p) => StageOf(s, p).Ready?
    case Look(p) => StageOf(s, p).Owner?
    case RenameIn(p) => StageOf(s, p).Clear?
    case Cleanup(p, _) => StageOf(s, p) in {Placed, Quitting}
    case Fail(p) => StageOf(s, p) in {Writing, Ready, Owner, Clear}
    case Crash(p) => StageOf(s, p) in {Writing, Ready, Owner, Clear, Placed, Quitting}
    case Claim => s.inbox.Some?
  }

  function Go(s: State, p: nat, stage: Stage): State {
    s.(stages := s.stages[p := stage])
  }

  function After(s: State, a: Action, content: nat -> string): State
    requires Enabled(s, a, content)
  {
    match a
    case Write(p, n) =>
      Go(s, p, if n == |content(p)| then Ready else Writing).(files := s.files[p := content(p)[..n]])
    case TryLink(p) => if s.inbox.Some? then Go(s, p, Refused) else Go(s, p, Placed).(inbox := Some(p))
    case TrySlot(p) => if s.slot.Some? then Go(s, p, Refused) else Go(s, p, Owner).(slot := Some(p))
    case Look(p) => Go(s, p, if s.inbox.Some? then Quitting else Clear)
    case RenameIn(p) => Go(s, p, Placed).(inbox := Some(p))
    case Cleanup(p, unlinked) =>
      Go(s, p, if StageOf(s, p).Placed? then Returned else Refused)
        .(slot := if unlinked && s.slot == Some(p) then None else s.slot)
    case Fail(p) => Go(s, p, if StageOf(s, p) in {Owner, Clear} then Quitting else Refused)
    case Crash(p) => Go(s, p, Crashed)
    case Claim => s.(inbox := None, claimed := s.claimed + [(s.inbox.value, FileOf(s, s.inbox.value))])
  }

  /** Which actions a file system with or without hard links allows. */
  predicate Allowed(mode: Mode, a: Action) {
    match mode
    case Link => !a.TrySlot?
    case Slot => !a.TryLink?
  }

  predicate IsRun(modes: set<Mode>, s: State, run: seq<Action>, content: nat -> string)
    decreases run
  {
    run == []
    || ((exists m | m in modes :: Allowed(m, run[0])) && Enabled(s, run[0], content)
        && IsRun(modes, After(s, run[0], content), run[1..], content))
  }

  function Final(modes: set<Mode>, s: State, run: seq<Action>, content: nat -> string): State
    requires IsRun(modes, s, run, content)
    decreases run
  {
    if run == [] then s else Final(modes, After(s, run[0], content), run[1..], content)
  }

  // ------------------------------------------------------------ safety

  /** How often the daemon took the ticket of `p`. */
  function Taken(claimed: seq<(nat, string)>, p: nat): nat {
    if claimed == [] then 0
    else Taken(claimed[..|claimed| - 1], p) + if claimed[|claimed| - 1].0 == p then 1 else 0
  }

  function Copies(s: State, p: nat): nat {
    Taken(s.claimed, p) + if s.inbox == Some(p) then 1 else 0
  }

  /** What holds for one submitter: a placed ticket is complete and there exactly
      once, no other ever was; the slot has one owner, and what it saw is still so. */
  ghost predicate Sane(mode: Mode, s: State, p: nat, content: nat -> string) {
    match StageOf(s, p)
    case Away => Copies(s, p) == 0
    case Writing => Copies(s, p) == 0
    case Ready => Copies(s, p) == 0 && FileOf(s, p) == content(p)
    case Owner => Copies(s, p) == 0 && FileOf(s, p) == content(p) && mode.Slot? && s.slot == Some(p)
    case Clear => Copies(s, p) == 0 && FileOf(s, p) == content(p) && mode.Slot? && s.slot == Some(p) && s.inbox.None?
    case Placed => Copies(s, p) == 1 && FileOf(s, p) == content(p) && (mode.Slot? ==> s.slot == Some(p))
    case Quitting => Copies(s, p) == 0 && mode.Slot? && s.slot == Some(p)
    case Returned => Copies(s, p) == 1 && FileOf(s, p) == content(p)
    case Refused => Copies(s, p) == 0
    case Crashed => Copies(s, p) <= 1
  }

  /** Whatever is visible or was taken is complete. */
  ghost predicate Complete(s: State, content: nat -> string) {
    && (s.inbox.Some? ==>
          FileOf(s, s.inbox.value) == content(s.inbox.value) && !(StageOf(s, s.inbox.value) in {Away, Writing}))
    && (forall c | c in s.claimed :: c.1 == content(c.0))
  }

  ghost predicate Good(mode: Mode, s: State, content: nat -> string) {
    Complete(s, content) && forall p: nat :: Sane(mode, s, p, content)
  }

  lemma ClaimStaysSane(mode: Mode, s: State, p: nat, content: nat -> string)
    requires Sane(mode, s, p, content) && s.inbox.Some?
    ensures Sane(mode, After(s, Claim, content), p, content)
  {
  }

  lemma OtherStaysSane(mode: Mode, s: State, a: Action, p: nat, content: nat -> string)
    requires Sane(mode, s, p, content) && Allowed(mode, a) && Enabled(s, a, content)
    requires !a.Claim? && a.p != p && Sane(mode, s, a.p, content)
    ensures Sane(mode, After(s, a, content), p, content)
  {
    var t := After(s, a, content);
    assert StageOf(t, p) == StageOf(s, p) && FileOf(t, p) == FileOf(s, p);
  }

  lemma OwnStaysSane(mode: Mode, s: State, a: Action, content: nat -> string)
    requires !a.Claim? && Sane(mode, s, a.p, content) && Allowed(mode, a) && Enabled(s, a, content)
    ensures Sane(mode, After(s, a, content), a.p, content)
  {
  }

  lemma StepStaysGood(mode: Mode, s: State, a: Action, content: nat -> string)
    requires Good(mode, s, content) && Allowed(mode, a) && Enabled(s, a, content)
    ensures Good(mode, After(s, a, content), content)
  {
    forall p: nat ensures Sane(mode, After(s, a, content), p, content) {
      if a.Claim? {
        ClaimStaysSane(mode, s, p, content);
      } else if a.p != p {
        OtherStaysSane(mode, s, a, p, content);
      } else {
        OwnStaysSane(mode, s, a, content);
      }
    }
    if !a.Claim? {
      assert Sane(mode, s, a.p, content);
    }
  }

  /** Every interleaving, all submitters in one mode. */
  lemma {:induction false} RunsStayGood(mode: Mode, s: State, run: seq<Action>, content: nat -> string)
    requires Good(mode, s, content) && IsRun({mode}, s, run, content)
    ensures Good(mode, Final({mode}, s, run, content), content)
    decreases run
  {
    if run != [] {
      StepStaysGood(mode, s, run[0], content);
      RunsStayGood(mode, After(s, run[0], content), run[1..], content);
    }
  }

  lemma InitIsGood(mode: Mode, content: nat -> string)
    ensures Good(mode, INIT, content)
  {
  }

  ghost predicate Succeeded(s: State, p: nat) {
    StageOf(s, p) in {Placed, Returned}
  }

  function Takers(claimed: seq<(nat, string)>): set<nat> {
    set c | c in claimed :: c.0
  }

  lemma {:induction false} FewTakers(claimed: seq<(nat, string)>)
    ensures |Takers(claimed)| <= |claimed|
    ensures forall p | Taken(claimed, p) > 0 :: p in Takers(claimed)
  {
    if claimed != [] {
      var n := |claimed| - 1;
      FewTakers(claimed[..n]);
      assert claimed == claimed[..n] + [claimed[n]];
      assert Takers(claimed) == Takers(claimed[..n]) + {claimed[n].0};
    }
  }

  /** Each success has its own ticket, in the inbox or with the daemon. */
  lemma SuccessesAreFew(mode: Mode, s: State, content: nat -> string, winners: set<nat>)
    requires Good(mode, s, content) && forall p | p in winners :: Succeeded(s, p)
    ensures |winners| <= |s.claimed| + 1
  {
    FewTakers(s.claimed);
    var all := Takers(s.claimed) + if s.inbox.Some? then {s.inbox.value} else {};
    forall p | p in winners ensures p in all {
      assert Sane(mode, s, p, content);
    }
    Subset(winners, all);
  }

  lemma Subset(a: set<nat>, b: set<nat>)
    requires a <= b
    ensures |a| <= |b|
  {
    assert b == a + (b - a);
  }

  /** No ticket is lost or doubled, none is seen in part, and successes never
      outnumber the daemon's claims by more than one. */
  lemma PlacementIsSafe(mode: Mode, run: seq<Action>, content: nat -> string, p: nat, winners: set<nat>)
    requires IsRun({mode}, INIT, run, content)
    requires forall q | q in winners :: Succeeded(Final({mode}, INIT, run, content), q)
    ensures var s := Final({mode}, INIT, run, content);
            && (Succeeded(s, p) ==> Copies(s, p) == 1)
            && (StageOf(s, p).Refused? ==> Copies(s, p) == 0)
            && (s.inbox.Some? ==> FileOf(s, s.inbox.value) == content(s.inbox.value))
            && (forall c | c in s.claimed :: c.1 == content(c.0))
            && |winners| <= |s.claimed| + 1
  {
    InitIsGood(mode, content);
    RunsStayGood(mode, INIT, run, content);
    var s := Final({mode}, INIT, run, content);
    assert Sane(mode, s, p, content);
    SuccessesAreFew(mode, s, content, winners);
  }

  // ------------------------------------------------------------ limits

  /** A submitter that died as owner leaves its slot file behind. */
  ghost predicate Stuck(s: State, q: nat) {
    s.slot == Some(q) && StageOf(s, q) in {Crashed, Returned, Refused}
    && forall p: nat :: StageOf(s, p) in {Owner, Clear, Placed, Quitting} ==> false
  }

  /** From then on no submission of that name succeeds, whatever the daemon takes. */
  lemma {:induction false} StaleSlotBlocks(s: State, q: nat, run: seq<Action>, content: nat -> string, p: nat)
    requires Stuck(s, q) && IsRun({Slot}, s, run, content)
    ensures Stuck(Final({Slot}, s, run, content), q)
    ensures Succeeded(Final({Slot}, s, run, content), p) ==> Succeeded(s, p)
    decreases run
  {
    if run != [] {
      var t := After(s, run[0], content);
      forall r: nat ensures StageOf(t, r) == StageOf(s, r) || StageOf(t, r) in {Writing, Ready, Refused, Crashed} {
        assert StageOf(s, r) in {Owner, Clear, Placed, Quitting} ==> false;
      }
      StaleSlotBlocks(t, q, run[1..], content, p);
    }
  }

  /** The slot file is that of a submitter that once owned the slot. */
  ghost predicate Held(s: State) {
    s.slot.Some? ==> StageOf(s, s.slot.value) !in {Away, Writing, Ready}
  }

  lemma {:induction false} SlotIsHeld(s: State, run: seq<Action>, content: nat -> string)
    requires Held(s) && IsRun({Slot}, s, run, content)
    ensures Held(Final({Slot}, s, run, content))
    decreases run
  {
    if run != [] {
      SlotIsHeld(After(s, run[0], content), run[1..], content);
    }
  }

  /** That happens exactly when an owner crashes or cannot remove its slot file. */
  lemma OwnerLeavesSlot(run: seq<Action>, content: nat -> string, a: Action)
    requires IsRun({Slot}, INIT, run, content) && Enabled(Final({Slot}, INIT, run, content), a, content)
    requires Allowed(Slot, a) && !a.Claim? && !Stuck(Final({Slot}, INIT, run, content), a.p)
    ensures var s := Final({Slot}, INIT, run, content);
            Stuck(After(s, a, content), a.p)
            <==> s.slot == Some(a.p) && (a.Crash? || (a.Cleanup? && !a.unlinked))
  {
    var s := Final({Slot}, INIT, run, content);
    InitIsGood(Slot, content);
    RunsStayGood(Slot, INIT, run, content);
    StepStaysGood(Slot, s, a, content);
    SlotIsHeld(INIT, run, content);
    var t := After(s, a, content);
    assert Sane(Slot, s, a.p, content) && Sane(Slot, t, a.p, content);
    forall p: nat | p != a.p && s.slot == Some(a.p) ensures StageOf(t, p) !in {Owner, Clear, Placed, Quitting} {
      assert Sane(Slot, s, p, content);
    }
  }

  /** Such a run. */
  lemma StaleSlotIsReached(content: nat -> string)
    requires content(1) == "t"
    ensures exists run | IsRun({Slot}, INIT, run, content) :: Stuck(Final({Slot}, INIT, run, content), 1)
  {
    var run := [Write(1, 1), TrySlot(1), Crash(1)];
    var one := State(map[1 := Ready], map[1 := "t"], None, None, []);
    var two := State(map[1 := Owner], map[1 := "t"], Some(1), None, []);
    var three := State(map[1 := Crashed], map[1 := "t"], Some(1), None, []);
    assert content(1)[..1] == "t";
    OneStep({Slot}, Slot, two, run, 2, three, content);
    OneStep({Slot}, Slot, one, run, 1, two, content);
    OneStep({Slot}, Slot, INIT, run, 0, one, content);
    assert run[0..] == run;
    assert Stuck(three, 1);
  }

  lemma OneStep(modes: set<Mode>, m: Mode, s: State, run: seq<Action>, i: nat, t: State, content: nat -> string)
    requires i < |run| && m in modes && Allowed(m, run[i]) && Enabled(s, run[i], content)
    requires After(s, run[i], content) == t && IsRun(modes, t, run[i + 1..], content)
    ensures IsRun(modes, s, run[i..], content)
    ensures Final(modes, s, run[i..], content) == Final(modes, t, run[i + 1..], content)
  {
  }

  lemma FirstStep(modes: set<Mode>, m: Mode, s: State, a: Action, rest: seq<Action>, content: nat -> string)
    requires m in modes && Allowed(m, a) && Enabled(s, a, content) && IsRun(modes, After(s, a, content), rest, content)
    ensures IsRun(modes, s, [a] + rest, content)
    ensures Final(modes, s, [a] + rest, content) == Final(modes, After(s, a, content), rest, content)
  {
    assert ([a] + rest)[1..] == rest;
  }

  /** Where no ticket of the name is in the inbox, a submitter by hard link succeeds. */
  lemma LinkSucceeds(s: State, p: nat, content: nat -> string)
    requires StageOf(s, p).Away? && FileOf(s, p) == "" && s.inbox.None? && s.slot != Some(p)
    ensures exists run | IsRun({Link}, s, run, content) ::
              Final({Link}, s, run, content)
              == State(s.stages[p := Returned], s.files[p := content(p)], s.slot, Some(p), s.claimed)
  {
    var a, b, c := Write(p, |content(p)|), TryLink(p), Cleanup(p, true);
    assert content(p)[..|content(p)|] == content(p);
    var t := After(s, a, content);
    var u := After(t, b, content);
    FirstStep({Link}, Link, u, c, [], content);
    FirstStep({Link}, Link, t, b, [c] + [], content);
    FirstStep({Link}, Link, s, a, [b] + ([c] + []), content);
    var v := After(u, c, content);
    assert v.stages == s.stages[p := Returned] && v.files == s.files[p := content(p)];
    assert Final({Link}, s, [a] + ([b] + ([c] + [])), content) == v;
  }

  /** So does one by the slot, where that is free too, and it leaves the slot free. */
  lemma SlotSucceeds(s: State, p: nat, content: nat -> string)
    requires StageOf(s, p).Away? && FileOf(s, p) == "" && s.inbox.None? && s.slot.None?
    ensures exists run | IsRun({Slot}, s, run, content) ::
              Final({Slot}, s, run, content)
              == State(s.stages[p := Returned], s.files[p := content(p)], None, Some(p), s.claimed)
  {
    var a, b, c, d, e := Write(p, |content(p)|), TrySlot(p), Look(p), RenameIn(p), Cleanup(p, true);
    assert content(p)[..|content(p)|] == content(p);
    var t := After(s, a, content);
    var u := After(t, b, content);
    var v := After(u, c, content);
    var w := After(v, d, content);
    FirstStep({Slot}, Slot, w, e, [], content);
    FirstStep({Slot}, Slot, v, d, [e] + [], content);
    FirstStep({Slot}, Slot, u, c, [d] + ([e] + []), content);
    FirstStep({Slot}, Slot, t, b, [c] + ([d] + ([e] + [])), content);
    FirstStep({Slot}, Slot, s, a, [b] + ([c] + ([d] + ([e] + []))), content);
    var x := After(w, e, content);
    assert x.stages == s.stages[p := Returned] && x.files == s.files[p := content(p)];
    assert Final({Slot}, s, [a] + ([b] + ([c] + ([d] + ([e] + [])))), content) == x;
  }

  const FILES: map<nat, string> := map[1 := "t", 2 := "t"]
  const BEFORE_LOOK := State(map[1 := Ready, 2 := Owner], FILES, Some(2), None, [])
  const OVERWRITTEN := State(map[1 := Placed, 2 := Placed], FILES, Some(2), Some(2), [])

  lemma LinkBetweenLookAndRename(content: nat -> string)
    ensures IsRun({Link, Slot}, BEFORE_LOOK, [Look(2), TryLink(1), RenameIn(2)], content)
    ensures Final({Link, Slot}, BEFORE_LOOK, [Look(2), TryLink(1), RenameIn(2)], content) == OVERWRITTEN
  {
  }

  /** Where some submitters use links and some the slot, a rename replaces a linked
      ticket: both report success, one ticket is gone. */
  lemma MixedModesClobber(content: nat -> string)
    requires content(1) == content(2) == "t"
    ensures exists run | IsRun({Link, Slot}, INIT, run, content) ::
              && StageOf(Final({Link, Slot}, INIT, run, content), 1) == Placed
              && Copies(Final({Link, Slot}, INIT, run, content), 1) == 0
  {
    var tail := [Look(2), TryLink(1), RenameIn(2)];
    var run := [Write(1, 1), Write(2, 1), TrySlot(2)] + tail;
    var one := State(map[1 := Ready], map[1 := "t"], None, None, []);
    var two := State(map[1 := Ready, 2 := Ready], FILES, None, None, []);
    LinkBetweenLookAndRename(content);
    assert run[3..] == tail && content(1)[..1] == "t" && content(2)[..1] == "t";
    OneStep({Link, Slot}, Slot, two, run, 2, BEFORE_LOOK, content);
    OneStep({Link, Slot}, Slot, one, run, 1, two, content);
    OneStep({Link, Slot}, Slot, INIT, run, 0, one, content);
    assert run[0..] == run;
    assert Final({Link, Slot}, INIT, run, content) == OVERWRITTEN;
    assert StageOf(OVERWRITTEN, 1) == Placed && Copies(OVERWRITTEN, 1) == 0;
  }
}
