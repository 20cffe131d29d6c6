/** Why the flush takes a lock: two flushers between the scan for a fingerprint and
    the creation of its issue. */
module FlushRace {

  /** A flusher is away, between two ops about the same finding, or past the scan. */
  datatype Stage = Away | Ready | Scanned(found: bool)

  /** `holder` is the flusher in the lock file; `issues` counts issues about the finding,
      `over` the ops about it whose files have been deleted. */
  datatype State = State(holder: set<nat>, stage: map<nat, Stage>, issues: nat, over: nat)

  function StageOf(s: State, p: nat): Stage {
    if p in s.stage then s.stage[p] else Away
  }

  datatype Action =
    | Enter(p: nat)
    | Scan(p: nat)
    | Create(p: nat, landed: bool, told: bool)
    | Skip(p: nat)
    | Leave(p: nat)

  predicate Enabled(locked: bool, s: State, a: Action) {
    match a
    case Enter(p) => StageOf(s, p).Away? && (locked ==> s.holder == {})
    case Scan(p) => StageOf(s, p).Ready?
    case Create(p, landed, told) => StageOf(s, p) == Scanned(false) && (told ==> landed)
    case Skip(p) => StageOf(s, p) == Scanned(true)
    case Leave(p) => !StageOf(s, p).Away?
  }

  /** A flusher leaves when it is done, fails or dies: its lock then counts for nothing. */
  function After(s: State, a: Action): State {
    match a
    case Enter(p) => s.(holder := s.holder + {p}, stage := s.stage[p := Ready])
    case Scan(p) => s.(stage := s.stage[p := Scanned(s.issues > 0)])
    case Create(p, landed, told) =>
      s.(stage := s.stage[p := Ready], issues := s.issues + (if landed then 1 else 0),
         over := s.over + if told then 1 else 0)
    case Skip(p) => s.(stage := s.stage[p := Ready], over := s.over + 1)
    case Leave(p) => s.(holder := s.holder - {p}, stage := s.stage[p := Away])
  }

  predicate IsRun(locked: bool, s: State, run: seq<Action>)
    decreases run
  {
    run == [] || (Enabled(locked, s, run[0]) && IsRun(locked, After(s, run[0]), run[1..]))
  }

  function Final(s: State, run: seq<Action>): State
    decreases run
  {
    if run == [] then s else Final(After(s, run[0]), run[1..])
  }

  /** Whoever flushes holds the lock, alone, and what it scanned is still so. */
  ghost predicate Exclusive(s: State) {
    && (forall p: nat | !StageOf(s, p).Away? :: s.holder == {p})
    && (forall p: nat :: StageOf(s, p) == Scanned(false) ==> s.issues == 0)
  }

  lemma StepStaysExclusive(s: State, a: Action)
    requires Exclusive(s) && Enabled(true, s, a)
    ensures Exclusive(After(s, a)) && (s.issues <= 1 ==> After(s, a).issues <= 1)
    ensures After(s, a).issues > s.issues ==> s.issues == 0
  {
  }

  /** Under the lock, however many flushers come and go, and however many ops ask
      for it, the finding never gets an issue when it has one. */
  lemma {:induction false} LockedFilesOnce(s: State, run: seq<Action>)
    requires Exclusive(s) && IsRun(true, s, run)
    ensures Exclusive(Final(s, run))
    ensures Final(s, run).issues <= if s.issues == 0 then 1 else s.issues
    decreases run
  {
    if run != [] {
      StepStaysExclusive(s, run[0]);
      LockedFilesOnce(After(s, run[0]), run[1..]);
    }
  }

  /** Lock or not, no op goes before there is an issue. */
  ghost predicate Served(s: State) {
    (s.over > 0 || exists p: nat :: StageOf(s, p) == Scanned(true)) ==> s.issues > 0
  }

  lemma {:induction false} OverMeansServed(locked: bool, s: State, run: seq<Action>)
    requires Served(s) && IsRun(locked, s, run)
    ensures Served(Final(s, run)) && (Final(s, run).over > 0 ==> Final(s, run).issues > 0)
    ensures Final(s, run).issues >= s.issues && Final(s, run).over >= s.over
    decreases run
  {
    if run != [] {
      StepServes(locked, s, run[0]);
      OverMeansServed(locked, After(s, run[0]), run[1..]);
    }
  }

  lemma StepServes(locked: bool, s: State, a: Action)
    requires Served(s) && Enabled(locked, s, a)
    ensures Served(After(s, a)) && After(s, a).issues >= s.issues && After(s, a).over >= s.over
  {
    if p: nat :| StageOf(After(s, a), p) == Scanned(true) {
      assert StageOf(s, p) == Scanned(true) || a == Scan(p);
    }
  }

  /** An op that a flusher comes to alone goes for good. */
  lemma OneTurnIsEnough(s: State, p: nat)
    requires StageOf(s, p).Ready?
    ensures var run := [Scan(p), if s.issues > 0 then Skip(p) else Create(p, true, true)];
            IsRun(true, s, run) && Final(s, run).over == s.over + 1 && Final(s, run).issues > 0
  {
    var act := if s.issues > 0 then Skip(p) else Create(p, true, true);
    var run := [Scan(p), act];
    assert run[1..] == [act] && [act][1..] == [] && StageOf(After(s, Scan(p)), p) == Scanned(s.issues > 0);
    assert IsRun(true, After(s, Scan(p)), [act]) && Final(After(s, Scan(p)), [act]) == After(After(s, Scan(p)), act);
  }

  const START := State({}, map[], 0, 0)

  /** Without it, two flushers file the finding twice. */
  lemma UnlockedFilesTwice()
    ensures var run := [Enter(1), Enter(2), Scan(1), Scan(2), Create(1, true, true), Create(2, true, true)];
            IsRun(false, START, run) && Final(START, run).issues == 2
  {
  }
}
