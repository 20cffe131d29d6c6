/** Whole runs of the migrate command: the queue phase, the old names, then the
    planned pairs; any number of them, each resolved and planned anew on what the
    last one left. */
module MigrateRuns {
  import opened FileTree
  import opened Mover
  import opened RootPlan
  import opened Wrappers
  import opened MigrateLaws
  import opened MigrateRoutes
  import M = Migration

  /** The pairs a run plans on what it finds. */
  ghost function PlannedPairs(t: Tree, r: Roots, override: Option<Path>): seq<M.Pair> {
    var res := ResolveDataRoot(t, r, override);
    ToPairs(Plan(AllCandidates(SourceRoots(r, res.0, TargetRoot(r, res)), TargetRoot(r, res)), t))
  }

  ghost predicate PairsIn(pairs: seq<M.Pair>, cs: seq<Candidate>) {
    forall i | 0 <= i < |pairs| :: Candidate(pairs[i].from, pairs[i].to) in cs
  }

  /** A plan on some of the sources is among the candidates of all. */
  lemma PlanAmong(sources: seq<Path>, more: seq<Path>, target: Path, t: Tree)
    requires GoodRoots(sources, target) && forall s | s in sources :: s in more
    ensures PairsIn(ToPairs(Plan(AllCandidates(sources, target), t)), AllCandidates(more, target))
  {
    var cs := AllCandidates(sources, target);
    CandidatesDistinct(sources, target);
    PlanIsRightful(cs, t);
    CandidatesFit(sources, target);
    forall p | p in Plan(cs, t) ensures Candidate(p.from, p.to) in AllCandidates(more, target) {
      assert Rightful(cs, t, p);
      var s, e :| s in sources && Fits(Candidate(p.from, p.to), e, s, target);
      CandidateOf(more, target, s, e);
    }
  }

  /** Whichever root is picked, the pairs are among the moves. */
  lemma PlannedAmong(t: Tree, r: Roots, override: Option<Path>)
    requires Apart(r.canonical, r.legacy)
    ensures PairsIn(PlannedPairs(t, r, override), AllCandidates(Sources(r, override), Target(r, override)))
    ensures M.Separate(PlannedPairs(t, r, override)) && M.OneWinner(PlannedPairs(t, r, override))
    ensures TargetRoot(r, ResolveDataRoot(t, r, override)) == Target(r, override)
  {
    var res := ResolveDataRoot(t, r, override);
    RootsAreGood(r, t, override);
    PlanIsSafe(SourceRoots(r, res.0, TargetRoot(r, res)), TargetRoot(r, res), t);
    PlanAmong(SourceRoots(r, res.0, TargetRoot(r, res)), Sources(r, override), TargetRoot(r, res), t);
  }

  /** What a run moves are routes: the pairs of its plan, and the old names of the
      root it has resolved. */
  lemma PlannedAreRoutes(t: Tree, r: Roots, override: Option<Path>, vault: Path, current: bool, external: bool)
    requires GoodVault(r, override, vault)
    ensures Among(PlannedPairs(t, r, override), Routes(r, override, vault))
    ensures Among(M.StatePairs(ResolveDataRoot(t, r, override).0, current, external), Routes(r, override, vault))
  {
    var sources, root := Sources(r, override), ResolveDataRoot(t, r, override).0;
    PlannedAmong(t, r, override);
    assert root in sources;
    var pairs := M.StatePairs(root, current, external);
    forall i | 0 <= i < |pairs| ensures Candidate(pairs[i].from, pairs[i].to) in AllStateMoves(sources) {
      assert Candidate(root + [M.OLD_NAMES[i]], root + M.NewPlaces(current)[i]) in StateMoves(root);
    }
  }

  /** The entry of the mapping called `queue` stays at its place. */
  lemma OnlyQueueIsQueue(e: Entry)
    requires e in FLAT
    ensures e.place != [] && (e.place[0] == "queue" ==> e.place == ["queue"])
  {
    TopsAre(e);
    EntryIsShaped(e);
    assert "queue" in TOPS && "queue" !in GROUPS;
  }

  lemma EntryBesideQueue(target: Path, e: Entry, key: string)
    requires e in FLAT
    ensures target + e.place == target + ["queue"] || Apart(target + e.place, target + ["queue"] + [key])
  {
    OnlyQueueIsQueue(e);
    assert target + (["queue"] + [key]) == target + ["queue"] + [key];
    if e.place[0] != "queue" {
      ApartInside(target, e.place, ["queue"] + [key]);
    }
  }

  lemma CandidateBesideQueue(sources: seq<Path>, target: Path, c: Candidate, key: string)
    requires c in AllCandidates(sources, target)
    ensures c.to == target + ["queue"] || Apart(c.to, target + ["queue"] + [key])
  {
    CandidatesFit(sources, target);
    var s, e :| s in sources && Fits(c, e, s, target);
    EntryBesideQueue(target, e, key);
  }

  /** A pair has the whole queue for its destination, or nothing of it. */
  lemma PairsBesideQueue(sources: seq<Path>, target: Path, pairs: seq<M.Pair>, vault: Path)
    requires PairsIn(pairs, AllCandidates(sources, target))
    ensures forall i, k | 0 <= i < |pairs| && k in QueueSteps(vault, target) ::
              pairs[i].to == target + ["queue"] || Apart(pairs[i].to, k.to)
  {
    forall i, k | 0 <= i < |pairs| && k in QueueSteps(vault, target)
      ensures pairs[i].to == target + ["queue"] || Apart(pairs[i].to, k.to)
    {
      var j: nat :| j < |KEYS| && k == QueueSteps(vault, target)[j];
      CandidateBesideQueue(sources, target, Candidate(pairs[i].from, pairs[i].to), KEYS[j]);
    }
  }

  lemma PresentIsWaiting(queue: seq<Candidate>, t: Tree, present: set<int>)
    requires present == set i | 0 <= i < |queue| && Exists(t, queue[i].from)
    ensures present != {} <==> Waiting(queue, t)
  {
    if Waiting(queue, t) {
      var k :| k in queue && Exists(t, k.from);
      var i :| 0 <= i < |queue| && queue[i] == k;
      assert i in present;
    }
  }

  // ------------------------------------------------------------ the queue phase

  /** The destinations of the queue are distinct and have one parent. */
  ghost predicate InOneDir(queue: seq<Candidate>, target: Path) {
    && (forall k | k in queue :: Parent(k.to) == target + ["queue"] && |k.to| > |target + ["queue"]|)
    && (forall i, j | 0 <= i < j < |queue| :: Apart(queue[j].to, queue[i].to))
  }

  /** Something other than an empty directory is at the place of a queue directory. */
  ghost predicate Obstructed(queue: seq<Candidate>, t: Tree) {
    exists c :: c in queue && Occupied(t, c.to)
  }

  /** The rename at tick `k` meets another device, and the copy cannot succeed: a
      directory meets a file, or a file does not arrive in full. */
  ghost predicate Stuck(d: Disk, t: Tree, c: Candidate, k: nat) {
    d.fate(k).CrossDevice? && (Blocked(t, c.from, c.to) != {} || !Reaches(t, c.from, d.reach(k + 2)))
  }

  ghost predicate SomeStuck(d: Disk, queue: seq<Candidate>, t: Tree, a: nat, b: nat) {
    exists c, k :: c in queue && a <= k < b && Stuck(d, t, c, k)
  }

  /** The queue directories from the k-th on, and their places, are as they were. */
  ghost predicate Ahead(queue: seq<Candidate>, k: nat, t: Tree, t': Tree) {
    forall i | k <= i < |queue| :: Same(t, t', queue[i].from) && Same(t, t', queue[i].to)
  }

  lemma AheadNext(routes: set<Candidate>, queue: seq<Candidate>, k: nat, target: Path, t: Tree, u: Tree, e: set<Path>,
                  v: Tree, f: set<Path>)
    requires Clean(routes, queue) && InOneDir(queue, target) && k < |queue| && Ahead(queue, k, t, u)
    requires BeyondBoth(u, v, queue[k].from, queue[k].to) && OnlyWithin(u, e, v, f, queue[k].to)
    ensures Ahead(queue, k + 1, t, v)
  {
    forall i | k < i < |queue| ensures Same(t, v, queue[i].from) && Same(t, v, queue[i].to) {
      assert queue[i] in queue && queue[k] in queue && queue[i] in routes && queue[k] in routes;
      assert Beside(queue[i], queue[k]) && Beside(queue[k], queue[i]) && Apart(queue[i].to, queue[k].to);
      SameElsewhere(queue[k].from, queue[k].to, u, e, v, f, queue[i].from);
      SameElsewhere(queue[k].from, queue[k].to, u, e, v, f, queue[i].to);
    }
  }

  lemma AheadOfDir(routes: set<Candidate>, queue: seq<Candidate>, target: Path, t: Tree, u: Tree)
    requires Clean(routes, queue) && InOneDir(queue, target)
    requires u == t || (target + ["queue"] !in t && u == t[target + ["queue"] := Dir])
    ensures Ahead(queue, 0, t, u)
  {
    forall i | 0 <= i < |queue|
      ensures !Under(target + ["queue"], queue[i].from) && !Under(target + ["queue"], queue[i].to)
    {
      assert queue[i] in queue && Beside(queue[i], queue[i]);
    }
  }

  /** What hinders a move now would have from the start. */
  lemma CauseAhead(d: Disk, queue: seq<Candidate>, k: nat, t: Tree, u: Tree, a: nat, b: nat)
    requires k < |queue| && Ahead(queue, k, t, u) && a < b
    requires Occupied(u, queue[k].to) || Stuck(d, u, queue[k], a)
    ensures Obstructed(queue, t) || SomeStuck(d, queue, t, a, b)
  {
    var c := queue[k];
    assert c in queue;
    ExistsAlike(t, u, c.to);
    BlockedAlike(t, u, c.from, c.to);
    ReachesAlike(t, u, c.from, d.reach(a + 2));
    if Stuck(d, u, c, a) {
      assert Stuck(d, t, c, a);
    }
  }

  /** The directory that will hold the queue. */
  method MakeQueueDir(d: Disk, ghost routes: set<Candidate>, ghost queue: seq<Candidate>, target: Path)
    returns (x: Exec)
    requires d.Valid() && Clean(routes, queue) && queue != [] && InOneDir(queue, target)
    modifies d
    ensures d.Valid() && Careful(routes, queue, old(d.tree), old(d.dirty), d.tree, d.dirty)
    ensures x.Ok? ==> Ahead(queue, 0, old(d.tree), d.tree) && target + ["queue"] in d.tree
    ensures !x.Exdev? && old(d.tick) <= d.tick && (x.Ok? || d.Trouble(old(d.tick), d.tick))
    ensures x.Died? ==> d.PowerLost(old(d.tick), d.tick) && d.dirty == {}
  {
    x := d.MakeDir(target + ["queue"]);
    if x.Died? {
      d.LosePower();
    }
    assert queue[0] in queue;
    QueueStepKeeps(routes, queue, queue[0], old(d.tree), old(d.dirty), d.tree, d.dirty);
    if x.Ok? {
      AheadOfDir(routes, queue, target, old(d.tree), d.tree);
    }
  }

  /** One directory of the queue; `t` and `e` are the disk before the first. */
  method MoveOne(d: Disk, ghost routes: set<Candidate>, queue: seq<Candidate>, k: nat,
                 ghost t: Tree, ghost e: set<Path>)
    returns (x: Exec)
    requires d.Valid() && Clean(routes, queue) && k < |queue|
    requires Careful(routes, queue, t, e, d.tree, d.dirty) && Exists(d.tree, Parent(queue[k].to))
    modifies d
    ensures d.Valid() && Careful(routes, queue, t, e, d.tree, d.dirty)
    ensures forall i | 0 <= i < |queue| && Exists(d.tree, queue[i].from) :: Exists(old(d.tree), queue[i].from)
    ensures x.Ok? ==> !Exists(d.tree, queue[k].from)
    ensures OnlyWithin(old(d.tree), old(d.dirty), d.tree, d.dirty, queue[k].to)
    ensures !x.Died? ==> BeyondBoth(old(d.tree), d.tree, queue[k].from, queue[k].to)
    ensures x.Ok? || d.Trouble(old(d.tick), d.tick) || Occupied(old(d.tree), queue[k].to)
            || Stuck(d, old(d.tree), queue[k], old(d.tick))
    ensures old(d.tick) < d.tick && !x.Exdev? && (x.Died? <==> d.PowerLost(old(d.tick), d.tick))
    ensures x.Died? ==> d.dirty == {}
  {
    assert queue[k] in queue && Beside(queue[k], queue[k]);
    var r := d.MoveQueueDir(queue[k].from, queue[k].to);
    x := if r in {Moved, CopiedOver} then Ok else if r.Dead? then Died else Failed;
    QueueStepKeeps(routes, queue, queue[k], old(d.tree), old(d.dirty), d.tree, d.dirty);
    WaitsLess(queue, old(d.tree), old(d.dirty), d.tree, d.dirty);
    CarefulTwice(routes, queue, t, e, old(d.tree), old(d.dirty), d.tree, d.dirty);
  }

  /** What is still in the vault was there at the start, and its turn will come. */
  ghost predicate LeftFrom(queue: seq<Candidate>, t: Tree, k: nat, present: set<int>) {
    forall i | 0 <= i < |queue| && Exists(t, queue[i].from) :: i in present && k <= i
  }

  /** The same, with the cause of an error. */
  method TakeTurn(d: Disk, ghost routes: set<Candidate>, queue: seq<Candidate>, k: nat, ghost target: Path,
                  ghost t: Tree, ghost e: set<Path>)
    returns (x: Exec)
    requires d.Valid() && Clean(routes, queue) && k < |queue| && InOneDir(queue, target)
    requires Careful(routes, queue, t, e, d.tree, d.dirty) && Ahead(queue, k, t, d.tree)
    requires target + ["queue"] in d.tree
    modifies d
    ensures d.Valid() && Careful(routes, queue, t, e, d.tree, d.dirty)
    ensures forall i | 0 <= i < |queue| && Exists(d.tree, queue[i].from) :: Exists(old(d.tree), queue[i].from)
    ensures x.Ok? ==> !Exists(d.tree, queue[k].from)
    ensures !x.Ok? || (Ahead(queue, k + 1, t, d.tree) && target + ["queue"] in d.tree)
    ensures x.Ok? || d.Trouble(old(d.tick), d.tick) || Obstructed(queue, t)
            || SomeStuck(d, queue, t, old(d.tick), d.tick)
    ensures old(d.tick) < d.tick && !x.Exdev? && (x.Died? <==> d.PowerLost(old(d.tick), d.tick))
    ensures x.Died? ==> d.dirty == {}
  {
    QueueDirHolds(routes, queue, k, target, d.tree);
    x := MoveOne(d, routes, queue, k, t, e);
    if Occupied(old(d.tree), queue[k].to) || Stuck(d, old(d.tree), queue[k], old(d.tick)) {
      CauseAhead(d, queue, k, t, old(d.tree), old(d.tick), d.tick);
    }
    if x.Ok? {
      AheadNext(routes, queue, k, target, t, old(d.tree), old(d.dirty), d.tree, d.dirty);
    }
  }

  lemma QueueDirHolds(routes: set<Candidate>, queue: seq<Candidate>, k: nat, target: Path, t: Tree)
    requires Clean(routes, queue) && InOneDir(queue, target) && k < |queue| && target + ["queue"] in t
    ensures Exists(t, Parent(queue[k].to))
    ensures !Under(target + ["queue"], queue[k].from) && !Under(target + ["queue"], queue[k].to)
  {
    assert queue[k] in queue && Beside(queue[k], queue[k]);
    assert Under(target + ["queue"], Parent(queue[k].to));
  }

  /** The loop over the queue directories that are there. */
  method MoveAll(d: Disk, ghost routes: set<Candidate>, queue: seq<Candidate>, present: set<int>, ghost target: Path,
                 ghost t: Tree, ghost e: set<Path>)
    returns (x: Exec)
    requires d.Valid() && Clean(routes, queue) && InOneDir(queue, target) && LeftFrom(queue, d.tree, 0, present)
    requires Careful(routes, queue, t, e, d.tree, d.dirty) && Ahead(queue, 0, t, d.tree)
    requires target + ["queue"] in d.tree
    modifies d
    ensures d.Valid() && Careful(routes, queue, t, e, d.tree, d.dirty)
    ensures x.Ok? ==> !Waiting(queue, d.tree)
    ensures x.Ok? || d.Trouble(old(d.tick), d.tick) || Obstructed(queue, t)
            || SomeStuck(d, queue, t, old(d.tick), d.tick)
    ensures old(d.tick) <= d.tick && !x.Exdev? && (x.Died? <==> d.PowerLost(old(d.tick), d.tick))
    ensures x.Died? ==> d.dirty == {}
  {
    x := Ok;
    for k := 0 to |queue|
      invariant d.Valid() && x.Ok? && old(d.tick) <= d.tick && !d.PowerLost(old(d.tick), d.tick)
      invariant Careful(routes, queue, t, e, d.tree, d.dirty)
      invariant Ahead(queue, k, t, d.tree) && LeftFrom(queue, d.tree, k, present) && target + ["queue"] in d.tree
    {
      if k in present {
        x := TakeTurn(d, routes, queue, k, target, t, e);
        if !x.Ok? { return; }
      }
    }
  }

  /** Moves every queue directory the vault has, up to the first error; the queue is
      then claimed against the pairs. Without a failing call an error means that one of
      the places was taken, or that a copy over devices could not succeed. */
  method QueuePhase(d: Disk, ghost routes: set<Candidate>, queue: seq<Candidate>, target: Path)
    returns (claimed: set<Path>, x: Exec)
    requires d.Valid() && Clean(routes, queue) && InOneDir(queue, target)
    modifies d
    ensures d.Valid() && Careful(routes, queue, old(d.tree), old(d.dirty), d.tree, d.dirty)
    ensures claimed == if Waiting(queue, old(d.tree)) then {target + ["queue"]} else {}
    ensures x.Ok? ==> !Waiting(queue, d.tree)
    ensures x.Ok? || d.Trouble(old(d.tick), d.tick) || Obstructed(queue, old(d.tree))
            || SomeStuck(d, queue, old(d.tree), old(d.tick), d.tick)
    ensures x.Died? ==> d.PowerLost(old(d.tick), d.tick) && d.dirty == {}
    ensures old(d.tick) <= d.tick && !x.Exdev?
  {
    var present := set i | 0 <= i < |queue| && Exists(d.tree, queue[i].from);
    claimed, x := {}, Ok;
    PresentIsWaiting(queue, d.tree, present);
    if present == {} { return; }
    claimed := {target + ["queue"]};
    x := MakeQueueDir(d, routes, queue, target);
    if !x.Ok? { return; }
    WaitsLess(queue, old(d.tree), old(d.dirty), d.tree, d.dirty);
    x := MoveAll(d, routes, queue, present, target, old(d.tree), old(d.dirty));
  }

  lemma QueueIsInOneDir(vault: Path, target: Path)
    ensures InOneDir(QueueSteps(vault, target), target)
  {
    var queue := QueueSteps(vault, target);
    KeysDiffer();
    forall i, j | 0 <= i < j < |queue| ensures Apart(queue[j].to, queue[i].to) {
      ApartInside(target + ["queue"], [KEYS[j]], [KEYS[i]]);
    }
  }

  /** With the queue claimed, no pair touches what the queue phase may have moved. */
  ghost predicate QueueIsItsOwn(pairs: seq<M.Pair>, log: seq<M.Result>, queue: seq<Candidate>) {
    |log| <= |pairs| && forall i, k | 0 <= i < |log| && M.Acted(log[i]) && k in queue :: Apart(pairs[i].to, k.to)
  }

  lemma ClaimedIsLeft(pairs: seq<M.Pair>, log: seq<M.Result>, queue: seq<Candidate>, t: Tree, place: Path,
                      journalFile: Path)
    requires |log| <= |pairs| && forall i | 0 <= i < |log| :: M.Thorough(pairs[i], log[i], t, {place}, journalFile)
    requires forall i, k | 0 <= i < |pairs| && k in queue :: pairs[i].to == place || Apart(pairs[i].to, k.to)
    ensures QueueIsItsOwn(pairs, log, queue)
  {
  }

  lemma ClaimedStays(sources: seq<Path>, target: Path, pairs: seq<M.Pair>, vault: Path, log: seq<M.Result>, t: Tree)
    requires PairsIn(pairs, AllCandidates(sources, target)) && |log| <= |pairs|
    requires forall i | 0 <= i < |log| ::
               M.Thorough(pairs[i], log[i], t, {target + ["queue"]}, target + ["migrated.json"])
    ensures QueueIsItsOwn(pairs, log, QueueSteps(vault, target))
  {
    PairsBesideQueue(sources, target, pairs, vault);
    ClaimedIsLeft(pairs, log, QueueSteps(vault, target), t, target + ["queue"], target + ["migrated.json"]);
  }

  // ------------------------------------------------------------ one run

  /** The planned pairs, on the disk the other phases left. */
  method RunPairs(d: Disk, j: M.Journal, pairs: seq<M.Pair>, claimed: set<Path>, journalFile: Path,
                  ghost routes: set<Candidate>, ghost queue: seq<Candidate>)
    returns (log: seq<M.Result>, x: Exec, ghost end: M.PassEnd)
    requires d.Valid() && M.Separate(pairs) && M.OneWinner(pairs) && Clean(routes, queue) && Among(pairs, routes)
    modifies d, j
    ensures d.Valid() && |log| <= |pairs| && M.NoMerge(pairs, log) && (x.Ok? ==> |log| == |pairs|)
    ensures M.Passed(pairs, log, old(d.tree), old(d.dirty), d.tree, d.dirty, claimed, journalFile)
    ensures Plain(routes, queue, old(d.tree), old(d.dirty), d.tree, d.dirty)
    ensures M.Recounted(d, pairs, log, end, old(d.tree), old(d.dirty), claimed, journalFile)
    ensures M.WentWell(log, x) || M.LastHindered(d, pairs, log, end, old(d.tree)) || !j.writes(old(j.tick)).Done?
    ensures x.Ok? ==> M.OnRecord(old(j.steps), M.Receipts(pairs, log), j.writes(old(j.tick)))
    ensures M.Crashed(log) ==> d.PowerLost(old(d.tick), d.tick) && j.steps == old(j.steps)
    ensures !M.Crashed(log) ==> j.steps == M.Journaled(old(j.steps), M.Receipts(pairs, log), j.writes(old(j.tick)))
    ensures old(d.tick) <= d.tick && (x.Died? ==> d.dirty == {})
  {
    log, x, end := M.Run(d, j, pairs, claimed, journalFile);
    PairsKeep(routes, pairs, old(d.tree), old(d.dirty), d.tree, d.dirty);
    PairsShrink(routes, queue, pairs, old(d.tree), old(d.dirty), d.tree, d.dirty);
  }

  /** The old names of the root in use. */
  method StatePhase(d: Disk, own: M.Journal, pairs: seq<M.Pair>,
                    ghost routes: set<Candidate>, ghost queue: seq<Candidate>)
    returns (x: Exec)
    requires d.Valid() && M.Separate(pairs) && Clean(routes, queue) && Among(pairs, routes)
    modifies d, own
    ensures d.Valid() && Plain(routes, queue, old(d.tree), old(d.dirty), d.tree, d.dirty)
    ensures !x.Ok? || M.AllQuiet(pairs, d.tree, own.steps)
    ensures x.Ok? || d.Trouble(old(d.tick), d.tick) || d.Crossed(old(d.tick), d.tick)
            || !own.writes(old(own.tick)).Done?
    ensures M.PlacesDiffer(pairs) && x.Ok? ==>
              own.steps == M.Journaled(old(own.steps), M.StateReceipts(pairs, |pairs|, old(d.tree)),
                                       own.writes(old(own.tick)))
    ensures old(own.steps) <= own.steps && old(d.tick) <= d.tick && (x.Died? ==> d.dirty == {})
  {
    var _, y, _, _ := M.MigrateStateTree(d, own, pairs);
    x := y;
    PairsKeep(routes, pairs, old(d.tree), old(d.dirty), d.tree, d.dirty);
    PairsShrink(routes, queue, pairs, old(d.tree), old(d.dirty), d.tree, d.dirty);
  }

  /** What the configuration says: whether it still names the vault, which layout is
      in use, whether clones of external repositories lie under the data root. */
  datatype Setting = Setting(vault: bool, current: bool, external: bool)

  /** The tick between the queue and the old names; the disk and the journal between
      the old names and the pairs. */
  datatype Mid = Mid(queued: nat, tree: Tree, dirty: set<Path>, tick: nat, steps: seq<M.Step>, writes: nat)

  /** What can keep the phases before the pairs from completing: a failing call; for the
      queue, a place that is taken or a copy that cannot succeed; for the old names, which
      are not copied, another device, or the journal. */
  ghost predicate Prevented(d: Disk, c: Setting, queue: seq<Candidate>, t: Tree, a: nat, queued: nat, b: nat,
                            write: Fate)
  {
    || d.Trouble(a, b) || (c.vault && (Obstructed(queue, t) || SomeStuck(d, queue, t, a, queued)))
    || d.Crossed(queued, b) || !write.Done?
  }

  /** The two phases before the pairs. */
  method Prepare(d: Disk, own: M.Journal, r: Roots, override: Option<Path>, vault: Path, root: Path, c: Setting)
    returns (claimed: set<Path>, x: Exec, ghost queued: nat)
    requires d.Valid() && GoodVault(r, override, vault)
    requires Among(M.StatePairs(root, c.current, c.external), Routes(r, override, vault))
    modifies d, own
    ensures d.Valid() && old(own.steps) <= own.steps && old(d.tick) <= d.tick && (x.Died? ==> d.dirty == {})
    ensures RunKeeps(c.vault, Routes(r, override, vault), QueueSteps(vault, Target(r, override)),
                     old(d.tree), old(d.dirty), d.tree, d.dirty)
    ensures claimed == if c.vault && Waiting(QueueSteps(vault, Target(r, override)), old(d.tree))
                       then {Target(r, override) + ["queue"]} else {}
    ensures x.Ok? ==> M.AllQuiet(M.StatePairs(root, c.current, c.external), d.tree, own.steps)
    ensures x.Ok? && c.vault ==> !Waiting(QueueSteps(vault, Target(r, override)), d.tree)
    ensures old(d.tick) <= queued <= d.tick
    ensures x.Ok? || Prevented(d, c, QueueSteps(vault, Target(r, override)), old(d.tree), old(d.tick), queued, d.tick,
                               own.writes(old(own.tick)))
  {
    ghost var routes := Routes(r, override, vault);
    var queue, pairs := QueueSteps(vault, Target(r, override)), M.StatePairs(root, c.current, c.external);
    RoutesAreClean(r, override, vault);
    M.StatePairsAreSeparate(root, c.current, c.external);
    claimed, x := {}, Ok;
    if c.vault {
      QueueIsInOneDir(vault, Target(r, override));
      claimed, x := QueuePhase(d, routes, queue, Target(r, override));
    }
    queued := d.tick;
    if x.Ok? {
      ghost var t, e := d.tree, d.dirty;
      x := StatePhase(d, own, pairs, routes, queue);
      if c.vault {
        ThenPlain(routes, queue, old(d.tree), old(d.dirty), t, e, d.tree, d.dirty);
      }
    }
  }

  /** All phases, with the plan `pairs`; `own` is the journal of the root in use. */
  method Perform(d: Disk, j: M.Journal, own: M.Journal, pairs: seq<M.Pair>, root: Path, r: Roots,
                 override: Option<Path>, vault: Path, c: Setting)
    returns (log: seq<M.Result>, claimed: set<Path>, x: Exec, ghost mid: Mid, ghost end: M.PassEnd)
    requires d.Valid() && GoodVault(r, override, vault) && M.Separate(pairs) && M.OneWinner(pairs)
    requires PairsIn(pairs, AllCandidates(Sources(r, override), Target(r, override)))
    requires Among(pairs, Routes(r, override, vault))
    requires Among(M.StatePairs(root, c.current, c.external), Routes(r, override, vault))
    modifies d, j, own
    ensures d.Valid() && old(j.steps) <= mid.steps <= j.steps && old(own.steps) <= own.steps
    ensures RunKeeps(c.vault, Routes(r, override, vault), QueueSteps(vault, Target(r, override)),
                     old(d.tree), old(d.dirty), d.tree, d.dirty)
    ensures |log| <= |pairs|
    ensures M.Passed(pairs, log, mid.tree, mid.dirty, d.tree, d.dirty,
                     claimed, Target(r, override) + ["migrated.json"])
    ensures M.NoMerge(pairs, log)
    ensures M.Recounted(d, pairs, log, end, mid.tree, mid.dirty, claimed, Target(r, override) + ["migrated.json"])
    ensures claimed == if c.vault && Waiting(QueueSteps(vault, Target(r, override)), old(d.tree))
                       then {Target(r, override) + ["queue"]} else {}
    ensures claimed == {}
            || QueueIsItsOwn(pairs, log, QueueSteps(vault, Target(r, override)))
    ensures x.Ok? ==> |log| == |pairs| && M.AllQuiet(M.StatePairs(root, c.current, c.external), mid.tree, own.steps)
    ensures x.Ok? && c.vault ==> !Waiting(QueueSteps(vault, Target(r, override)), d.tree)
    ensures M.WentWell(log, x) || M.LastHindered(d, pairs, log, end, mid.tree) || !j.writes(mid.writes).Done?
            || Prevented(d, c, QueueSteps(vault, Target(r, override)), old(d.tree), old(d.tick), mid.queued, mid.tick,
                         own.writes(old(own.tick)))
    ensures old(d.tick) <= mid.queued <= mid.tick <= d.tick && (x.Died? ==> d.dirty == {})
    ensures own != j ==> mid.steps == old(j.steps) && mid.writes == old(j.tick)
    ensures M.Crashed(log) ==> d.PowerLost(old(d.tick), d.tick) && j.steps == mid.steps
    ensures !M.Crashed(log) ==>
              j.steps == M.Journaled(mid.steps, M.Receipts(pairs, log),
                                     j.writes(mid.writes))
  {
    ghost var routes, queue := Routes(r, override, vault), QueueSteps(vault, Target(r, override));
    RoutesAreClean(r, override, vault);
    ghost var queued;
    claimed, x, queued := Prepare(d, own, r, override, vault, root, c);
    mid := Mid(queued, d.tree, d.dirty, d.tick, j.steps, j.tick);
    log, end := [], M.PassEnd(d.tick, d.tick, d.tree, d.dirty);
    M.NothingTold(pairs, d.tree, d.dirty, claimed, Target(r, override) + ["migrated.json"]);
    if x.Ok? {
      log, x, end := RunPairs(d, j, pairs, claimed, Target(r, override) + ["migrated.json"], routes, queue);
      RunThenPlain(c.vault, routes, queue, old(d.tree), old(d.dirty), mid.tree, mid.dirty, d.tree, d.dirty);
      if claimed != {} {
        ClaimedStays(Sources(r, override), Target(r, override), pairs, vault, log, mid.tree);
      }
    }
  }

  /** The run works where the data is. */
  predicate InPlace(t: Tree, r: Roots, override: Option<Path>) {
    ResolveDataRoot(t, r, override).0 == Target(r, override)
  }

  /** One run: resolve, plan, move the queue, the old names, then the pairs. `j` is
      the journal of the target, `jl` that of the legacy root, which records the old
      names while the data is there. */
  method MigrateData(d: Disk, j: M.Journal, jl: M.Journal, r: Roots, override: Option<Path>, vault: Path, c: Setting)
    returns (log: seq<M.Result>, claimed: set<Path>, x: Exec, ghost mid: Mid, ghost end: M.PassEnd)
    requires d.Valid() && GoodVault(r, override, vault) && j != jl
    modifies d, j, jl
    ensures d.Valid() && old(j.steps) <= mid.steps <= j.steps && old(jl.steps) <= jl.steps
    ensures RunKeeps(c.vault, Routes(r, override, vault), QueueSteps(vault, Target(r, override)),
                     old(d.tree), old(d.dirty), d.tree, d.dirty)
    ensures |log| <= |PlannedPairs(old(d.tree), r, override)|
    ensures M.Passed(PlannedPairs(old(d.tree), r, override), log, mid.tree, mid.dirty, d.tree, d.dirty,
                     claimed, Target(r, override) + ["migrated.json"])
    ensures M.NoMerge(PlannedPairs(old(d.tree), r, override), log)
    ensures M.Recounted(d, PlannedPairs(old(d.tree), r, override), log, end, mid.tree, mid.dirty, claimed,
                      Target(r, override) + ["migrated.json"])
    ensures claimed == if c.vault && Waiting(QueueSteps(vault, Target(r, override)), old(d.tree))
                       then {Target(r, override) + ["queue"]} else {}
    ensures claimed == {}
            || QueueIsItsOwn(PlannedPairs(old(d.tree), r, override), log, QueueSteps(vault, Target(r, override)))
    ensures x.Ok? ==>
              && |log| == |PlannedPairs(old(d.tree), r, override)|
              && M.AllQuiet(M.StatePairs(ResolveDataRoot(old(d.tree), r, override).0, c.current, c.external), mid.tree,
                            if InPlace(old(d.tree), r, override) then j.steps else jl.steps)
    ensures x.Ok? && c.vault ==> !Waiting(QueueSteps(vault, Target(r, override)), d.tree)
    ensures M.WentWell(log, x) || M.LastHindered(d, PlannedPairs(old(d.tree), r, override), log, end, mid.tree)
            || !j.writes(mid.writes).Done?
            || Prevented(d, c, QueueSteps(vault, Target(r, override)), old(d.tree), old(d.tick), mid.queued, mid.tick,
                         if InPlace(old(d.tree), r, override) then j.writes(old(j.tick)) else jl.writes(old(jl.tick)))
    ensures old(d.tick) <= mid.queued <= mid.tick <= d.tick && (x.Died? ==> d.dirty == {})
    ensures !InPlace(old(d.tree), r, override) ==> mid.steps == old(j.steps) && mid.writes == old(j.tick)
    ensures M.Crashed(log) ==> d.PowerLost(old(d.tick), d.tick) && j.steps == mid.steps
    ensures !M.Crashed(log) ==>
              j.steps == M.Journaled(mid.steps, M.Receipts(PlannedPairs(old(d.tree), r, override), log),
                                     j.writes(mid.writes))
  {
    var res := ResolveDataRoot(d.tree, r, override);
    var target := TargetRoot(r, res);
    var plan := DataRootPairs(d.tree, SourceRoots(r, res.0, target), target);
    PlannedAmong(d.tree, r, override);
    PlannedAreRoutes(d.tree, r, override, vault, c.current, c.external);
    var own := if res.0 == target then j else jl;
    log, claimed, x, mid, end := Perform(d, j, own, ToPairs(plan), res.0, r, override, vault, c);
  }

  /** Any number of runs of the command, each of which may fail or lose power
      anywhere, resolves and plans anew, and works under whatever layout it finds:
      every regular file is, in full, where it was or where a route takes it, unless
      it was in the queue already and the vault has a file of its name. The journals
      only grow. */
  method Migrations(d: Disk, j: M.Journal, jl: M.Journal, r: Roots, override: Option<Path>, vault: Path,
                    withVault: nat, layouts: nat -> (bool, bool), n: nat)
    requires d.Valid() && GoodVault(r, override, vault) && j != jl
    modifies d, j, jl
    ensures d.Valid() && old(j.steps) <= j.steps && old(jl.steps) <= jl.steps
    ensures Kept(Routes(r, override, vault), QueueSteps(vault, Target(r, override)),
                 old(d.tree), old(d.dirty), d.tree, d.dirty)
  {
    ghost var routes, queue := Routes(r, override, vault), QueueSteps(vault, Target(r, override));
    RoutesAreClean(r, override, vault);
    for i := 0 to n
      invariant d.Valid() && old(j.steps) <= j.steps && old(jl.steps) <= jl.steps
      invariant Kept(routes, queue, old(d.tree), old(d.dirty), d.tree, d.dirty)
      invariant Shrunk(queue, old(d.tree), old(d.dirty), d.tree, d.dirty)
      invariant i <= withVault ==> QueueHeld(routes, queue, old(d.tree), old(d.dirty), d.tree, d.dirty)
    {
      ghost var t, e := d.tree, d.dirty;
      var c := Setting(i < withVault, layouts(i).0, layouts(i).1);
      var _, _, _, _, _ := MigrateData(d, j, jl, r, override, vault, c);
      ThenRun(routes, queue, c.vault, old(d.tree), old(d.dirty), t, e, d.tree, d.dirty);
    }
  }
}
