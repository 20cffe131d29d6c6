/** Whole migrations: the loop over the pairs, its receipts, the journal, and what
    is left after any number of runs and power losses. */
module Migration {
  import opened FileTree
  import opened Mover

  datatype Action = Renamed | SkippedConflict | PartialCopy

  datatype Step = Step(from: Path, to: Path, action: Action)

  /** A planned pair; `contended` marks the loser of two sources for one place. */
  datatype Pair = Pair(from: Path, to: Path, contended: bool)

  // ------------------------------------------------------------ the journal

  predicate KnownConflict(steps: seq<Step>, s: Step) {
    s.action.SkippedConflict? && s in steps
  }

  /** What a journal gains: everything but the conflicts it already records. */
  function Fresh(steps: seq<Step>, more: seq<Step>): seq<Step> {
    if more == [] then []
    else (if KnownConflict(steps, more[0]) then [] else [more[0]]) + Fresh(steps, more[1..])
  }

  lemma {:induction false} FreshKeeps(steps: seq<Step>, more: seq<Step>)
    ensures forall s | s in more :: s in steps + Fresh(steps, more)
    ensures forall s | s in Fresh(steps, more) :: s in more && !KnownConflict(steps, s)
  {
    if more != [] {
      FreshKeeps(steps, more[1..]);
      assert more[0] in steps + Fresh(steps, more);
      assert forall s | s in more :: s == more[0] || s in more[1..];
      assert forall s | s in Fresh(steps, more[1..]) :: s in Fresh(steps, more);
    }
  }

  /** A second append of the same conflicts adds nothing. */
  lemma {:induction false} ConflictsOnce(steps: seq<Step>, more: seq<Step>)
    requires forall s | s in more :: KnownConflict(steps, s)
    ensures Fresh(steps, more) == []
  {
    if more != [] {
      ConflictsOnce(steps, more[1..]);
    }
  }

  predicate Lands(f: Fate) {
    f.Done? || f.DoneThenDies?
  }

  /** The journal after an append whose write, if there is anything to write, ends so. */
  function Journaled(steps: seq<Step>, more: seq<Step>, f: Fate): seq<Step> {
    if Lands(f) then steps + Fresh(steps, more) else steps
  }

  /** There was nothing to write, or the write went well. */
  ghost predicate OnRecord(steps: seq<Step>, more: seq<Step>, f: Fate) {
    Fresh(steps, more) == [] || f.Done?
  }

  class Journal {
    /** What comes of each write of the file. */
    const writes: nat -> Fate
    var tick: nat
    var steps: seq<Step>

    /** Read, append, write anew: the file changes in one step or not at all. */
    method Append(more: seq<Step>) returns (x: Exec)
      modifies this
      ensures steps == Journaled(old(steps), more, writes(old(tick)))
      ensures Fresh(old(steps), more) == [] ==> x.Ok? && steps == old(steps) && tick == old(tick)
      ensures Fresh(old(steps), more) != [] ==> x == Verdict(writes(old(tick))) && tick == old(tick) + 1
      ensures x.Ok? <==> OnRecord(old(steps), more, writes(old(tick)))
    {
      x := Ok;
      var add := Fresh(steps, more);
      if add != [] {
        x := Verdict(writes(tick));
        if Lands(writes(tick)) {
          steps := steps + add;
        }
        tick := tick + 1;
      }
    }
  }

  // An interrupted copy is remembered until the pair has really moved.

  /** The last word on the pair, whatever conflicts were reported since. */
  function HoldsPartial(steps: seq<Step>, from: Path, to: Path): bool {
    if steps == [] then false
    else
      var s := steps[|steps| - 1];
      if s == Step(from, to, PartialCopy) then true
      else if s == Step(from, to, Renamed) then false
      else HoldsPartial(steps[..|steps| - 1], from, to)
  }

  method DestinationHoldsPartialCopy(steps: seq<Step>, from: Path, to: Path) returns (partial: bool)
    ensures partial == HoldsPartial(steps, from, to)
    ensures partial <==> exists i :: 0 <= i < |steps| && steps[i] == Step(from, to, PartialCopy)
                                     && Step(from, to, Renamed) !in steps[i..]
  {
    partial := false;
    for i := 0 to |steps|
      invariant partial == HoldsPartial(steps[..i], from, to)
      invariant partial <==> exists j :: 0 <= j < i && steps[j] == Step(from, to, PartialCopy)
                                         && Step(from, to, Renamed) !in steps[j..i]
    {
      var s := steps[i];
      assert steps[..i + 1] == steps[..i] + [s];
      assert forall j | 0 <= j <= i :: steps[j..i + 1] == steps[j..i] + [s];
      if s.from != from || s.to != to {
        continue;
      }
      if s.action.PartialCopy? {
        partial := true;
        assert Step(from, to, Renamed) !in steps[i..i + 1];
      } else if s.action.Renamed? {
        partial := false;
      }
    }
    assert steps[..|steps|] == steps;
    assert forall j | 0 <= j < |steps| :: steps[j..|steps|] == steps[j..];
  }

  /** Re-runs report conflicts; the hint survives them all. */
  lemma {:induction false} HintSurvivesConflicts(steps: seq<Step>, more: seq<Step>, from: Path, to: Path)
    requires forall s | s in more :: s.action.SkippedConflict?
    ensures HoldsPartial(steps + more, from, to) == HoldsPartial(steps, from, to)
  {
    if more == [] {
      assert steps + more == steps;
    } else {
      assert steps + more == (steps + more[..|more| - 1]) + [more[|more| - 1]];
      HintSurvivesConflicts(steps, more[..|more| - 1], from, to);
    }
  }

  // ------------------------------------------------------------ the pairs

  /** No source contains or lies in a destination or another source; two
      destinations are the same or apart. */
  ghost predicate Separate(pairs: seq<Pair>) {
    && (forall i, j | 0 <= i < |pairs| && 0 <= j < |pairs| :: Apart(pairs[i].from, pairs[j].to))
    && (forall i, j | 0 <= i < j < |pairs| :: Apart(pairs[i].from, pairs[j].from))
    && (forall i, j | 0 <= i < j < |pairs| :: pairs[i].to == pairs[j].to || Apart(pairs[i].to, pairs[j].to))
    && (forall i | 0 <= i < |pairs| :: pairs[i].to != [])
  }

  /** Of the pairs for one destination all but one are marked. */
  ghost predicate OneWinner(pairs: seq<Pair>) {
    forall i, j | 0 <= i < j < |pairs| && pairs[i].to == pairs[j].to :: pairs[i].contended || pairs[j].contended
  }

  /** Every safe file is where it was or where a pair takes it. */
  ghost predicate Placed(pairs: seq<Pair>, t: Tree, d: set<Path>, t': Tree, d': set<Path>) {
    forall p | p in t && t[p].File? && p !in d ::
      || SafeAt(t', d', p, t[p])
      || exists i :: 0 <= i < |pairs| && Under(p, pairs[i].from)
                     && SafeAt(t', d', Relocate(p, pairs[i].from, pairs[i].to), t[p])
  }

  lemma PlacedStep(pairs: seq<Pair>, k: nat, t: Tree, d: set<Path>, u: Tree, e: set<Path>, v: Tree, f: set<Path>)
    requires Separate(pairs) && k < |pairs|
    requires Placed(pairs, t, d, u, e) && Conserved(u, e, v, f, pairs[k].from, pairs[k].to)
    ensures Placed(pairs, t, d, v, f)
  {
    forall p | p in t && t[p].File? && p !in d
      ensures SafeAt(v, f, p, t[p])
              || exists i :: 0 <= i < |pairs| && Under(p, pairs[i].from)
                             && SafeAt(v, f, Relocate(p, pairs[i].from, pairs[i].to), t[p])
    {
      if !SafeAt(u, e, p, t[p]) {
        var i :| 0 <= i < |pairs| && Under(p, pairs[i].from)
                 && SafeAt(u, e, Relocate(p, pairs[i].from, pairs[i].to), t[p]);
        StaysPut(Relocate(p, pairs[i].from, pairs[i].to), pairs[k].from, pairs[i].to);
        assert SafeAt(v, f, Relocate(p, pairs[i].from, pairs[i].to), t[p]);
      }
    }
  }

  lemma StaysPut(q: Path, from: Path, to: Path)
    requires Under(q, to) && Apart(from, to)
    ensures !Under(q, from)
  {
  }

  /** Beyond the destinations, and the directories that hold them, nothing appears,
      and what is safe does not change, but may go. */
  ghost predicate Elsewhere(pairs: seq<Pair>, t: Tree, d: set<Path>, t': Tree, d': set<Path>) {
    forall p | p in t' && (forall i | 0 <= i < |pairs| :: !Under(p, pairs[i].to) && p != Parent(pairs[i].to)) ::
      p in t && (p !in d ==> t'[p] == t[p] && p !in d')
  }

  lemma ElsewhereNext(pairs: seq<Pair>, k: nat, t: Tree, d: set<Path>, u: Tree, e: set<Path>, v: Tree, f: set<Path>)
    requires k < |pairs| && Elsewhere(pairs, t, d, u, e) && OnlyWithin(u, e, v, f, pairs[k].to)
    ensures Elsewhere(pairs, t, d, v, f)
  {
  }

  lemma ElsewhereStays(pairs: seq<Pair>, t: Tree, d: set<Path>, u: Tree, e: set<Path>, v: Tree, f: set<Path>)
    requires Elsewhere(pairs, t, d, u, e) && Fades(u, e, v, f)
    ensures Elsewhere(pairs, t, d, v, f)
  {
  }

  lemma PlacedStays(pairs: seq<Pair>, t: Tree, d: set<Path>, u: Tree, e: set<Path>, v: Tree, f: set<Path>)
    requires Placed(pairs, t, d, u, e) && Untouched(u, e, v, f)
    ensures Placed(pairs, t, d, v, f)
  {
  }

  // ------------------------------------------------------------ receipts

  /** What the loop did about one pair: no source; the journal itself, which is
      merged and not moved (the merge is no part of this); not tried; tried. */
  datatype Result = Absent | ForMerge | Refrained | Tried(outcome: Outcome)

  predicate Acted(r: Result) {
    r.Tried? && (r.outcome.Moved? || r.outcome.CopiedOver?)
  }

  function ReceiptOf(p: Pair, r: Result): seq<Step> {
    match r
    case Absent => []
    case ForMerge => []
    case Refrained => [Step(p.from, p.to, SkippedConflict)]
    case Tried(Moved) => [Step(p.from, p.to, Renamed)]
    case Tried(CopiedOver) => [Step(p.from, p.to, Renamed)]
    case Tried(Conflict) => [Step(p.from, p.to, SkippedConflict)]
    case Tried(Partial) => [Step(p.from, p.to, PartialCopy)]
    case Tried(_) => []
  }

  function Receipts(pairs: seq<Pair>, log: seq<Result>): seq<Step>
    requires |log| <= |pairs|
  {
    if log == [] then []
    else
      var n := |log| - 1;
      Receipts(pairs, log[..n]) + ReceiptOf(pairs[n], log[n])
  }

  ghost predicate StillThere(t: Tree, d: set<Path>, t': Tree, d': set<Path>, from: Path) {
    forall p | p in t && t[p].File? && p !in d && Under(p, from) :: SafeAt(t', d', p, t[p])
  }

  /** What is said to have moved is at its new place; what was refused or
      interrupted is all still there. */
  ghost predicate Says(p: Pair, r: Result, t: Tree, d: set<Path>, t': Tree, d': set<Path>) {
    match r
    case Tried(Moved) => Arrived(t, d, t', d', p.from, p.to)
    case Tried(CopiedOver) => Arrived(t, d, t', d', p.from, p.to)
    case Tried(Thrown) => true
    case Tried(Dead) => true
    case _ => StillThere(t, d, t', d', p.from)
  }

  /** Receipts tell the truth, and what the loop has not come to is still there. */
  ghost predicate Honest(pairs: seq<Pair>, log: seq<Result>, t: Tree, d: set<Path>, t': Tree, d': set<Path>)
    requires |log| <= |pairs|
  {
    && (forall i | 0 <= i < |log| :: Says(pairs[i], log[i], t, d, t', d'))
    && (forall i | |log| <= i < |pairs| :: StillThere(t, d, t', d', pairs[i].from))
  }

  lemma StillThereStays(i: Pair, k: Pair, t: Tree, d: set<Path>, u: Tree, e: set<Path>, v: Tree, f: set<Path>)
    requires Apart(k.from, i.from) && Conserved(u, e, v, f, k.from, k.to)
    requires StillThere(t, d, u, e, i.from)
    ensures StillThere(t, d, v, f, i.from)
  {
  }

  /** The loop deals with its next pair. */
  lemma HonestNext(pairs: seq<Pair>, log: seq<Result>, r: Result,
                   t: Tree, d: set<Path>, u: Tree, e: set<Path>, v: Tree, f: set<Path>)
    requires Separate(pairs) && |log| < |pairs| && Honest(pairs, log, t, d, u, e)
    requires Conserved(u, e, v, f, pairs[|log|].from, pairs[|log|].to)
    requires Says(pairs[|log|], r, u, e, v, f)
    ensures Honest(pairs, log + [r], t, d, v, f)
  {
    var k := |log|;
    forall i | 0 <= i < k ensures Says(pairs[i], log[i], t, d, v, f) {
      SaysStays(pairs[i], log[i], pairs[k], t, d, u, e, v, f);
    }
    forall i | k < i < |pairs| ensures StillThere(t, d, v, f, pairs[i].from) {
      StillThereStays(pairs[i], pairs[k], t, d, u, e, v, f);
    }
    assert StillThere(t, d, u, e, pairs[k].from);
    assert Says(pairs[k], r, t, d, v, f);
  }

  lemma SaysStays(i: Pair, r: Result, k: Pair, t: Tree, d: set<Path>, u: Tree, e: set<Path>, v: Tree, f: set<Path>)
    requires Apart(k.from, i.from) && Apart(k.from, i.to) && Conserved(u, e, v, f, k.from, k.to)
    requires Says(i, r, t, d, u, e)
    ensures Says(i, r, t, d, v, f)
  {
  }

  lemma HonestStays(pairs: seq<Pair>, log: seq<Result>,
                    t: Tree, d: set<Path>, u: Tree, e: set<Path>, v: Tree, f: set<Path>)
    requires |log| <= |pairs| && Honest(pairs, log, t, d, u, e) && Untouched(u, e, v, f)
    ensures Honest(pairs, log, t, d, v, f)
  {
  }

  /** What became of the source: gone, in doubt, or as it was. */
  ghost predicate Shows(p: Pair, r: Result, t: Tree, t': Tree) {
    match r
    case Tried(Moved) => Exists(t, p.from) && !Exists(t', p.from)
    case Tried(CopiedOver) => Exists(t, p.from) && !Exists(t', p.from)
    case Tried(Thrown) => true
    case Tried(Dead) => true
    case _ => Same(t, t', p.from)
  }

  /** So far for all; the pairs to come find their sources, and, unless they are marked,
      their destinations as they were. */
  ghost predicate AllShow(pairs: seq<Pair>, log: seq<Result>, t: Tree, t': Tree)
    requires |log| <= |pairs|
  {
    && (forall i | 0 <= i < |log| :: Shows(pairs[i], log[i], t, t'))
    && (forall i | |log| <= i < |pairs| :: Same(t, t', pairs[i].from))
    && (forall i | |log| <= i < |pairs| && !pairs[i].contended :: Same(t, t', pairs[i].to))
  }

  lemma StaysGone(p: Pair, u: Tree, e: set<Path>, v: Tree, f: set<Path>, root: Path)
    requires OnlyWithin(u, e, v, f, p.to) && Apart(root, p.to) && !Exists(u, root) && p.to != []
    ensures !Exists(v, root)
  {
    forall q | q in v ensures !Under(q, root) {
      if Under(q, root) && Under(q, p.to) {
        UnderBoth(q, root, p.to);
      }
    }
  }

  lemma ShowsStays(i: Pair, r: Result, k: Pair, t: Tree, u: Tree, e: set<Path>, v: Tree, f: set<Path>)
    requires BeyondBoth(u, v, k.from, k.to) && OnlyWithin(u, e, v, f, k.to) && k.to != []
    requires Apart(i.from, k.from) && Apart(i.from, k.to) && Shows(i, r, t, u)
    ensures Shows(i, r, t, v)
  {
    SameElsewhere(k.from, k.to, u, e, v, f, i.from);
    if r.Tried? && (r.outcome.Moved? || r.outcome.CopiedOver?) {
      StaysGone(k, u, e, v, f, i.from);
    }
  }

  lemma AllShowNext(pairs: seq<Pair>, log: seq<Result>, r: Result, t: Tree, u: Tree, e: set<Path>,
                    v: Tree, f: set<Path>)
    requires Separate(pairs) && OneWinner(pairs) && |log| < |pairs| && AllShow(pairs, log, t, u)
    requires BeyondBoth(u, v, pairs[|log|].from, pairs[|log|].to) && OnlyWithin(u, e, v, f, pairs[|log|].to)
    requires pairs[|log|].contended ==> u == v
    requires Shows(pairs[|log|], r, u, v)
    ensures AllShow(pairs, log + [r], t, v)
  {
    var k := |log|;
    forall i | 0 <= i < k ensures Shows(pairs[i], log[i], t, v) {
      ShowsStays(pairs[i], log[i], pairs[k], t, u, e, v, f);
    }
    forall i | k < i < |pairs| ensures Same(t, v, pairs[i].from) {
      SameElsewhere(pairs[k].from, pairs[k].to, u, e, v, f, pairs[i].from);
    }
    forall i | k < i < |pairs| && !pairs[i].contended ensures Same(t, v, pairs[i].to) {
      if pairs[i].to != pairs[k].to {
        assert Apart(pairs[k].to, pairs[i].to) && Apart(pairs[k].from, pairs[i].to);
        SameElsewhere(pairs[k].from, pairs[k].to, u, e, v, f, pairs[i].to);
      }
    }
    assert Same(t, u, pairs[k].from);
    ExistsAlike(t, u, pairs[k].from);
  }

  /** No two sources land on the same destination. */
  ghost predicate NoMerge(pairs: seq<Pair>, log: seq<Result>)
    requires |log| <= |pairs|
  {
    forall i, j | 0 <= i < j < |log| && Acted(log[i]) && Acted(log[j]) :: pairs[i].to != pairs[j].to
  }

  /** A source that must not move: its place is claimed, goes to another source, or has a
      file in it. */
  ghost predicate Refused(p: Pair, t: Tree, claimed: set<Path>, journalFile: Path) {
    && Exists(t, p.from) && p.to != journalFile
    && (p.to in claimed || p.contended || !FileFree(t, p.to))
  }

  /** Every source there is, is dealt with as planned. */
  ghost predicate Thorough(p: Pair, r: Result, t: Tree, claimed: set<Path>, journalFile: Path) {
    && (r.Absent? <==> !Exists(t, p.from))
    && (r.ForMerge? <==> Exists(t, p.from) && p.to == journalFile)
    && (r.Refrained? <==> Exists(t, p.from) && p.to != journalFile && (p.to in claimed || p.contended))
    && (r == Tried(Conflict) <==> Refused(p, t, claimed, journalFile) && p.to !in claimed && !p.contended)
  }

  /** The pass so far: files are placed, receipts honest, nothing was skipped, and
      nothing else was touched. */
  ghost predicate Passed(pairs: seq<Pair>, log: seq<Result>, t: Tree, d: set<Path>, t': Tree, d': set<Path>,
                         claimed: set<Path>, journalFile: Path)
  {
    && |log| <= |pairs| && Placed(pairs, t, d, t', d') && Honest(pairs, log, t, d, t', d')
    && Elsewhere(pairs, t, d, t', d')
    && forall i | 0 <= i < |log| :: Thorough(pairs[i], log[i], t, claimed, journalFile)
  }

  lemma PassNext(pairs: seq<Pair>, log: seq<Result>, r: Result, t: Tree, d: set<Path>, u: Tree, e: set<Path>,
                 v: Tree, f: set<Path>, claimed: set<Path>, journalFile: Path)
    requires Separate(pairs) && |log| < |pairs| && Passed(pairs, log, t, d, u, e, claimed, journalFile)
    requires Conserved(u, e, v, f, pairs[|log|].from, pairs[|log|].to) && Says(pairs[|log|], r, u, e, v, f)
    requires Thorough(pairs[|log|], r, t, claimed, journalFile) && OnlyWithin(u, e, v, f, pairs[|log|].to)
    ensures Passed(pairs, log + [r], t, d, v, f, claimed, journalFile)
  {
    HonestNext(pairs, log, r, t, d, u, e, v, f);
    PlacedStep(pairs, |log|, t, d, u, e, v, f);
    ElsewhereNext(pairs, |log|, t, d, u, e, v, f);
  }

  /** Losing power after the pass changes none of that. */
  lemma PassedStays(pairs: seq<Pair>, log: seq<Result>, t: Tree, d: set<Path>, u: Tree, e: set<Path>,
                    v: Tree, f: set<Path>, claimed: set<Path>, journalFile: Path)
    requires Passed(pairs, log, t, d, u, e, claimed, journalFile) && Untouched(u, e, v, f) && Fades(u, e, v, f)
    ensures Passed(pairs, log, t, d, v, f, claimed, journalFile)
  {
    PlacedStays(pairs, t, d, u, e, v, f);
    HonestStays(pairs, log, t, d, u, e, v, f);
    ElsewhereStays(pairs, t, d, u, e, v, f);
  }

  /** No two acted on one destination, as all but one of its pairs are marked. */
  lemma PassedDoesNotMerge(pairs: seq<Pair>, log: seq<Result>, t: Tree, claimed: set<Path>, journalFile: Path)
    requires |log| <= |pairs| && OneWinner(pairs)
    requires forall i | 0 <= i < |log| :: Thorough(pairs[i], log[i], t, claimed, journalFile)
    ensures NoMerge(pairs, log)
  {
  }

  // ------------------------------------------------------------ what the receipts tell

  /** The source was there, is gone, and its files are at their new places. */
  ghost predicate Took(p: Pair, t: Tree, d: set<Path>, u: Tree, e: set<Path>) {
    Exists(t, p.from) && !Exists(u, p.from) && Arrived(t, d, u, e, p.from, p.to)
  }

  /** The steps name, at most once each, sources of the first `n` pairs: as renamed,
      exactly those that were taken to their destinations; as conflicts, exactly those
      that had to be refused. The last pair may be cut short: it is named as renamed
      only if it was taken, and only it is ever named as a partial copy. */
  ghost predicate Tells(pairs: seq<Pair>, n: nat, cut: bool, steps: seq<Step>, t: Tree, d: set<Path>,
                        u: Tree, e: set<Path>, claimed: set<Path>, journalFile: Path)
    requires n <= |pairs|
  {
    && (forall s | s in steps :: exists i :: 0 <= i < n && s.from == pairs[i].from && s.to == pairs[i].to)
    && NamedOnce(steps)
    && (forall i | 0 <= i < n :: PairTold(pairs[i], cut && i == n - 1, steps, t, d, u, e, claimed, journalFile))
  }

  ghost predicate PairTold(p: Pair, cut: bool, steps: seq<Step>, t: Tree, d: set<Path>, u: Tree, e: set<Path>,
                           claimed: set<Path>, journalFile: Path)
  {
    && (Step(p.from, p.to, SkippedConflict) in steps <==> Refused(p, t, claimed, journalFile))
    && (Step(p.from, p.to, Renamed) in steps ==> Took(p, t, d, u, e))
    && (Took(p, t, d, u, e) && !cut ==> Step(p.from, p.to, Renamed) in steps)
    && (Step(p.from, p.to, PartialCopy) in steps ==> cut)
  }

  /** The last pair was cut short by an error. */
  predicate CutShort(log: seq<Result>) {
    log != [] && log[|log| - 1] in {Tried(Partial), Tried(Thrown)}
  }

  /** Only the last pair may end badly. */
  ghost predicate FineBefore(log: seq<Result>) {
    forall i | 0 <= i < |log| - 1 && log[i].Tried? :: Acted(log[i]) || log[i].outcome.Conflict?
  }

  ghost predicate SourcesDiffer(pairs: seq<Pair>) {
    forall i, j | 0 <= i < j < |pairs| :: pairs[i].from != pairs[j].from
  }

  lemma SeparateDiffer(pairs: seq<Pair>)
    requires Separate(pairs)
    ensures SourcesDiffer(pairs)
  {
    forall i, j | 0 <= i < j < |pairs| ensures pairs[i].from != pairs[j].from {
      assert Apart(pairs[i].from, pairs[j].from);
    }
  }

  lemma ReceiptNames(p: Pair, r: Result)
    ensures |ReceiptOf(p, r)| <= 1 && forall s | s in ReceiptOf(p, r) :: s.from == p.from && s.to == p.to
  {
  }

  lemma {:induction false} ReceiptFrom(pairs: seq<Pair>, log: seq<Result>, s: Step) returns (i: nat)
    requires |log| <= |pairs| && s in Receipts(pairs, log)
    ensures i < |log| && s in ReceiptOf(pairs[i], log[i])
  {
    var n := |log| - 1;
    if s in ReceiptOf(pairs[n], log[n]) {
      i := n;
    } else {
      i := ReceiptFrom(pairs, log[..n], s);
    }
  }

  lemma {:induction false} ReceiptIn(pairs: seq<Pair>, log: seq<Result>, i: nat, s: Step)
    requires i < |log| <= |pairs| && s in ReceiptOf(pairs[i], log[i])
    ensures s in Receipts(pairs, log)
  {
    if i < |log| - 1 {
      ReceiptIn(pairs, log[..|log| - 1], i, s);
    }
  }

  lemma {:induction false} ReceiptIsOwn(pairs: seq<Pair>, log: seq<Result>, i: nat, s: Step)
    requires i < |log| <= |pairs| && SourcesDiffer(pairs) && s.from == pairs[i].from
    ensures s in Receipts(pairs, log) <==> s in ReceiptOf(pairs[i], log[i])
  {
    if s in ReceiptOf(pairs[i], log[i]) {
      ReceiptIn(pairs, log, i, s);
    }
    if s in Receipts(pairs, log) {
      var k := ReceiptFrom(pairs, log, s);
      ReceiptNames(pairs[k], log[k]);
    }
  }

  /** Each source is named once. */
  ghost predicate NamedOnce(steps: seq<Step>) {
    forall a, b | 0 <= a < b < |steps| :: steps[a].from != steps[b].from
  }

  lemma NamedOnceMore(steps: seq<Step>, more: seq<Step>)
    requires NamedOnce(steps) && |more| <= 1 && forall s | s in steps && more != [] :: s.from != more[0].from
    ensures NamedOnce(steps + more)
  {
  }

  lemma {:induction false} ReceiptsDiffer(pairs: seq<Pair>, log: seq<Result>)
    requires |log| <= |pairs| && SourcesDiffer(pairs)
    ensures NamedOnce(Receipts(pairs, log))
  {
    if log != [] {
      var n := |log| - 1;
      ReceiptsDiffer(pairs, log[..n]);
      ReceiptNames(pairs[n], log[n]);
      forall s | s in Receipts(pairs, log[..n]) ensures s.from != pairs[n].from {
        var i := ReceiptFrom(pairs, log[..n], s);
        ReceiptNames(pairs[i], log[..n][i]);
      }
      NamedOnceMore(Receipts(pairs, log[..n]), ReceiptOf(pairs[n], log[n]));
    }
  }

  lemma OneTells(p: Pair, r: Result, t: Tree, d: set<Path>, u: Tree, e: set<Path>, claimed: set<Path>,
                 journalFile: Path)
    requires Thorough(p, r, t, claimed, journalFile) && Shows(p, r, t, u) && Says(p, r, t, d, u, e)
    requires r != Tried(Dead)
    ensures PairTold(p, r in {Tried(Partial), Tried(Thrown)}, ReceiptOf(p, r), t, d, u, e, claimed, journalFile)
  {
    if Same(t, u, p.from) {
      ExistsAlike(t, u, p.from);
    }
  }

  lemma {:induction false} OneIsTold(pairs: seq<Pair>, log: seq<Result>, i: nat, t: Tree, d: set<Path>,
                                     u: Tree, e: set<Path>, claimed: set<Path>, journalFile: Path)
    requires SourcesDiffer(pairs) && i < |log| <= |pairs| && log[i] != Tried(Dead)
    requires Thorough(pairs[i], log[i], t, claimed, journalFile) && Shows(pairs[i], log[i], t, u)
    requires Says(pairs[i], log[i], t, d, u, e)
    ensures PairTold(pairs[i], log[i] in {Tried(Partial), Tried(Thrown)}, Receipts(pairs, log), t, d, u, e,
                     claimed, journalFile)
  {
    OneTells(pairs[i], log[i], t, d, u, e, claimed, journalFile);
    ReceiptIsOwn(pairs, log, i, Step(pairs[i].from, pairs[i].to, SkippedConflict));
    ReceiptIsOwn(pairs, log, i, Step(pairs[i].from, pairs[i].to, Renamed));
    ReceiptIsOwn(pairs, log, i, Step(pairs[i].from, pairs[i].to, PartialCopy));
  }

  lemma CutIsLast(log: seq<Result>, i: nat)
    requires FineBefore(log) && !Crashed(log) && i < |log|
    ensures log[i] != Tried(Dead)
    ensures log[i] in {Tried(Partial), Tried(Thrown)} <==> CutShort(log) && i == |log| - 1
  {
  }

  /** Whatever the loop did, its receipts tell it. */
  lemma {:induction false} ReceiptsTell(pairs: seq<Pair>, log: seq<Result>, t: Tree, d: set<Path>, u: Tree,
                                        e: set<Path>, claimed: set<Path>, journalFile: Path)
    requires Separate(pairs) && Passed(pairs, log, t, d, u, e, claimed, journalFile) && AllShow(pairs, log, t, u)
    requires FineBefore(log) && !Crashed(log)
    ensures Tells(pairs, |log|, CutShort(log), Receipts(pairs, log), t, d, u, e, claimed, journalFile)
  {
    SeparateDiffer(pairs);
    ReceiptsDiffer(pairs, log);
    forall s | s in Receipts(pairs, log)
      ensures exists i :: 0 <= i < |log| && s.from == pairs[i].from && s.to == pairs[i].to
    {
      var i := ReceiptFrom(pairs, log, s);
      ReceiptNames(pairs[i], log[i]);
    }
    forall i | 0 <= i < |log|
      ensures PairTold(pairs[i], CutShort(log) && i == |log| - 1, Receipts(pairs, log), t, d, u, e, claimed,
                       journalFile)
    {
      CutIsLast(log, i);
      OneIsTold(pairs, log, i, t, d, u, e, claimed, journalFile);
    }
  }

  /** The pair that was cut short is named as a partial copy only if its rename met
      another device and its source is all there, and whenever its rename met another
      device and its files have not all arrived. */
  ghost predicate CutTold(d: Disk, p: Pair, steps: seq<Step>, end: PassEnd, t: Tree, e: set<Path>) {
    && (Step(p.from, p.to, PartialCopy) in steps ==> d.Copying(t, p.to, end.since) && Same(t, end.tree, p.from))
    && (d.Copying(t, p.to, end.since) && !Arrived(t, e, end.tree, end.dirty, p.from, p.to) ==>
          Step(p.from, p.to, PartialCopy) in steps)
  }

  lemma CutIsTold(d: Disk, pairs: seq<Pair>, log: seq<Result>, end: PassEnd, t: Tree, e: set<Path>)
    requires Separate(pairs) && Concluded(d, pairs, log, end, t, e)
    ensures CutShort(log) ==> CutTold(d, pairs[|log| - 1], Receipts(pairs, log), end, t, e)
  {
    if CutShort(log) {
      SeparateDiffer(pairs);
      var p := pairs[|log| - 1];
      ReceiptIsOwn(pairs, log, |log| - 1, Step(p.from, p.to, PartialCopy));
    }
  }

  lemma NamedOnceFirst(s: Step, more: seq<Step>)
    requires NamedOnce(more) && forall m | m in more :: m.from != s.from
    ensures NamedOnce([s] + more)
  {
  }

  lemma NamedOnceRest(steps: seq<Step>)
    requires NamedOnce(steps) && steps != []
    ensures NamedOnce(steps[1..]) && forall s | s in steps[1..] :: s.from != steps[0].from
  {
    forall s | s in steps[1..] ensures s.from != steps[0].from {
      var b :| 0 < b < |steps| && s == steps[b];
    }
  }

  lemma {:induction false} FreshNamesOnce(steps: seq<Step>, more: seq<Step>)
    requires NamedOnce(more)
    ensures NamedOnce(Fresh(steps, more))
  {
    if more != [] {
      NamedOnceRest(more);
      FreshNamesOnce(steps, more[1..]);
      FreshKeeps(steps, more[1..]);
      if !KnownConflict(steps, more[0]) {
        NamedOnceFirst(more[0], Fresh(steps, more[1..]));
      }
    }
  }

  lemma {:induction false} FreshHas(steps: seq<Step>, more: seq<Step>, s: Step)
    requires !s.action.SkippedConflict?
    ensures s in Fresh(steps, more) <==> s in more
  {
    if more != [] {
      FreshHas(steps, more[1..], s);
      assert s in more <==> s == more[0] || s in more[1..];
    }
  }

  lemma {:induction false} HintAfter(steps: seq<Step>, more: seq<Step>, from: Path, to: Path)
    requires NamedOnce(more)
    ensures HoldsPartial(steps + more, from, to)
       <==> Step(from, to, PartialCopy) in more
            || (Step(from, to, Renamed) !in more && HoldsPartial(steps, from, to))
  {
    if more == [] {
      assert steps + more == steps;
    } else {
      var n := |more| - 1;
      assert steps + more == (steps + more[..n]) + [more[n]];
      assert forall s :: s in more <==> s == more[n] || s in more[..n];
      if more[n] != Step(from, to, PartialCopy) && more[n] != Step(from, to, Renamed) {
        HintAfter(steps, more[..n], from, to);
      } else {
        forall s | s in more[..n] ensures s.from != from {
          var a :| 0 <= a < n && s == more[a];
        }
      }
    }
  }

  /** The hint after a run follows from what the run did: it is there if this run was
      interrupted copying the pair, gone if it took the pair, and else as it was. */
  lemma HintFollows(steps: seq<Step>, more: seq<Step>, from: Path, to: Path)
    requires NamedOnce(more)
    ensures HoldsPartial(steps + Fresh(steps, more), from, to)
       <==> Step(from, to, PartialCopy) in more
            || (Step(from, to, Renamed) !in more && HoldsPartial(steps, from, to))
  {
    FreshNamesOnce(steps, more);
    HintAfter(steps, Fresh(steps, more), from, to);
    FreshHas(steps, more, Step(from, to, PartialCopy));
    FreshHas(steps, more, Step(from, to, Renamed));
  }

  /** The same for a pair that the loop has dealt with and not been stopped at: the hint
      stays unless its source was taken to its destination. */
  lemma HintTells(pairs: seq<Pair>, n: nat, cut: bool, more: seq<Step>, i: nat, t: Tree, d: set<Path>, u: Tree,
                  e: set<Path>, claimed: set<Path>, journalFile: Path, steps: seq<Step>)
    requires i < n <= |pairs| && Tells(pairs, n, cut, more, t, d, u, e, claimed, journalFile)
    requires cut ==> i < n - 1
    ensures HoldsPartial(steps + Fresh(steps, more), pairs[i].from, pairs[i].to)
       <==> HoldsPartial(steps, pairs[i].from, pairs[i].to) && !Took(pairs[i], t, d, u, e)
  {
    HintFollows(steps, more, pairs[i].from, pairs[i].to);
    assert PairTold(pairs[i], false, more, t, d, u, e, claimed, journalFile);
  }

  /** And for the one it was stopped at: an interrupted copy leaves the hint. */
  lemma HintOfCut(d: Disk, pairs: seq<Pair>, n: nat, more: seq<Step>, end: PassEnd, t: Tree, e: set<Path>,
                  claimed: set<Path>, journalFile: Path, steps: seq<Step>)
    requires 0 < n <= |pairs| && Tells(pairs, n, true, more, t, e, end.tree, end.dirty, claimed, journalFile)
    requires CutTold(d, pairs[n - 1], more, end, t, e)
    ensures var p := pairs[n - 1];
            d.Copying(t, p.to, end.since) && !Arrived(t, e, end.tree, end.dirty, p.from, p.to) ==>
              HoldsPartial(steps + Fresh(steps, more), p.from, p.to)
  {
    HintFollows(steps, more, pairs[n - 1].from, pairs[n - 1].to);
  }

  /** Whatever was tried ended well. */
  ghost predicate WentWell(log: seq<Result>, x: Exec) {
    x.Ok? && forall r | r in log && r.Tried? :: Acted(r) || r.outcome.Conflict?
  }

  /** The last thing that happened was a loss of power. */
  predicate Crashed(log: seq<Result>) {
    log != [] && log[|log| - 1] == Tried(Dead)
  }

  /** The end of a pass: from which tick to which its last pair was dealt with, and the
      disk then. */
  datatype PassEnd = PassEnd(since: nat, till: nat, tree: Tree, dirty: set<Path>)

  /** The calls for one pair, from `a` to `b`, and what they leave of its source. */
  ghost predicate Tested(d: Disk, p: Pair, r: Result, a: nat, b: nat, t: Tree, e: set<Path>, t': Tree, e': set<Path>) {
    r.Tried? ==>
      && d.Ends(t, p.from, p.to, a, b, r.outcome)
      && (r.outcome.Partial? ==> d.Copying(t, p.to, a) && Same(t, t', p.from))
      && (r.outcome.Thrown? && !d.Copying(t, p.to, a) ==> Same(t, t', p.from))
      && (r.outcome.Thrown? && d.Copying(t, p.to, a) ==> Arrived(t, e, t', e', p.from, p.to))
  }

  /** The same, from the start of the pass. */
  lemma TestedAlike(d: Disk, p: Pair, r: Result, a: nat, b: nat, t: Tree, e: set<Path>, u: Tree, f: set<Path>,
                    t': Tree, e': set<Path>)
    requires Tested(d, p, r, a, b, u, f, t', e') && (r.Tried? ==> Same(t, u, p.from) && Same(t, u, p.to))
    requires StillThere(t, e, u, f, p.from)
    ensures Tested(d, p, r, a, b, t, e, t', e')
  {
    if r.Tried? {
      d.EndsAlike(t, u, p.from, p.to, a, b, r.outcome);
      ArrivedAlike(p, t, e, u, f, t', e');
    }
  }

  lemma ArrivedAlike(p: Pair, t: Tree, e: set<Path>, u: Tree, f: set<Path>, v: Tree, g: set<Path>)
    requires Same(t, u, p.from) && StillThere(t, e, u, f, p.from)
    ensures Arrived(u, f, v, g, p.from, p.to) ==> Arrived(t, e, v, g, p.from, p.to)
  {
  }

  /** The next pair. */
  method MoveNext(d: Disk, p: Pair, present: bool, claimed: set<Path>, journalFile: Path)
    returns (r: Result)
    requires d.Valid() && Apart(p.from, p.to) && p.to != [] && present == Exists(d.tree, p.from)
    modifies d
    ensures d.Valid() && Thorough(p, r, old(d.tree), claimed, journalFile)
    ensures Conserved(old(d.tree), old(d.dirty), d.tree, d.dirty, p.from, p.to)
    ensures OnlyWithin(old(d.tree), old(d.dirty), d.tree, d.dirty, p.to)
    ensures Says(p, r, old(d.tree), old(d.dirty), d.tree, d.dirty)
    ensures r != Tried(Dead) ==> BeyondBoth(old(d.tree), d.tree, p.from, p.to) && Shows(p, r, old(d.tree), d.tree)
    ensures p.contended ==> d.tree == old(d.tree)
    ensures Tested(d, p, r, old(d.tick), d.tick, old(d.tree), old(d.dirty), d.tree, d.dirty)
    ensures r == Tried(Dead) ==> d.dirty == {}
    ensures old(d.tick) <= d.tick && (r == Tried(Dead) <==> d.PowerLost(old(d.tick), d.tick))
  {
    if !present {
      r := Absent;
    } else if p.to == journalFile {
      r := ForMerge;
    } else if p.to in claimed || p.contended {
      r := Refrained;
    } else {
      var o := d.MovePair(p.from, p.to);
      r := Tried(o);
      if Beyond(old(d.tree), d.tree, p.to) {
        SourceStays(old(d.tree), old(d.dirty), d.tree, d.dirty, p.from, p.to);
      }
    }
  }

  lemma ThoroughAlike(p: Pair, r: Result, t: Tree, u: Tree, claimed: set<Path>, journalFile: Path)
    requires Same(t, u, p.from) && (p.contended || Same(t, u, p.to)) && Thorough(p, r, u, claimed, journalFile)
    ensures Thorough(p, r, t, claimed, journalFile)
  {
    ExistsAlike(t, u, p.from);
    if !p.contended {
      ExistsAlike(t, u, p.to);
    }
  }

  /** The loop so far, on a machine that lives; `t` and `e` are the disk before it. */
  ghost predicate Underway(pairs: seq<Pair>, log: seq<Result>, t: Tree, e: set<Path>, t': Tree, e': set<Path>,
                           claimed: set<Path>, journalFile: Path)
  {
    |log| <= |pairs| && Passed(pairs, log, t, e, t', e', claimed, journalFile) && AllShow(pairs, log, t, t')
  }

  /** One turn of the loop. */
  method PassOne(d: Disk, pairs: seq<Pair>, ghost log: seq<Result>, k: nat, present: bool, claimed: set<Path>,
                 journalFile: Path, ghost t: Tree, ghost e: set<Path>)
    returns (r: Result)
    requires d.Valid() && Separate(pairs) && OneWinner(pairs) && k == |log| < |pairs|
    requires present == Exists(t, pairs[k].from)
    requires Underway(pairs, log, t, e, d.tree, d.dirty, claimed, journalFile)
    modifies d
    ensures d.Valid() && old(d.tick) <= d.tick
    ensures Passed(pairs, log + [r], t, e, d.tree, d.dirty, claimed, journalFile)
    ensures r != Tried(Dead) ==> AllShow(pairs, log + [r], t, d.tree)
    ensures Tested(d, pairs[k], r, old(d.tick), d.tick, t, e, d.tree, d.dirty)
    ensures r == Tried(Dead) ==> d.dirty == {}
    ensures r == Tried(Dead) <==> d.PowerLost(old(d.tick), d.tick)
  {
    ExistsAlike(t, d.tree, pairs[k].from);
    r := MoveNext(d, pairs[k], present, claimed, journalFile);
    ThoroughAlike(pairs[k], r, t, old(d.tree), claimed, journalFile);
    PassNext(pairs, log, r, t, e, old(d.tree), old(d.dirty), d.tree, d.dirty, claimed, journalFile);
    if r != Tried(Dead) {
      AllShowNext(pairs, log, r, t, old(d.tree), old(d.dirty), d.tree, d.dirty);
    }
    TestedAlike(d, pairs[k], r, old(d.tick), d.tick, t, e, old(d.tree), old(d.dirty), d.tree, d.dirty);
  }

  /** How a pass ended: well, or with its last pair hindered. */
  ghost predicate Concluded(d: Disk, pairs: seq<Pair>, log: seq<Result>, end: PassEnd, t: Tree, e: set<Path>) {
    && |log| <= |pairs| && FineBefore(log)
    && (log != [] ==> Tested(d, pairs[|log| - 1], log[|log| - 1], end.since, end.till, t, e, end.tree, end.dirty))
  }

  /** A call for the last pair failed, or its copy did not arrive in full. */
  ghost predicate LastHindered(d: Disk, pairs: seq<Pair>, log: seq<Result>, end: PassEnd, t: Tree) {
    && log != [] && |log| <= |pairs|
    && d.Hindered(t, pairs[|log| - 1].from, pairs[|log| - 1].to, end.since, end.till)
  }

  lemma NotWell(d: Disk, pairs: seq<Pair>, log: seq<Result>, end: PassEnd, t: Tree, e: set<Path>)
    requires Concluded(d, pairs, log, end, t, e)
    ensures (forall r | r in log && r.Tried? :: Acted(r) || r.outcome.Conflict?) || LastHindered(d, pairs, log, end, t)
  {
    if log != [] && log[|log| - 1].Tried? {
      d.EndsWell(t, pairs[|log| - 1].from, pairs[|log| - 1].to, end.since, end.till, log[|log| - 1].outcome);
    }
  }

  lemma {:induction false} NextInLog(pairs: seq<Pair>, log: seq<Result>, r: Result)
    requires FineBefore(log) && !Crashed(log) && !CutShort(log) && |log| < |pairs|
    ensures FineBefore(log + [r])
    ensures Crashed(log + [r]) <==> r == Tried(Dead)
    ensures CutShort(log + [r]) <==> r in {Tried(Partial), Tried(Thrown)}
    ensures Receipts(pairs, log + [r]) == Receipts(pairs, log) + ReceiptOf(pairs[|log|], r)
  {
    assert (log + [r])[..|log|] == log;
  }

  /** One turn more: the log, the receipts and how it ended. */
  method Advance(d: Disk, pairs: seq<Pair>, ghost log: seq<Result>, k: nat, present: bool, claimed: set<Path>,
                 journalFile: Path, ghost t: Tree, ghost e: set<Path>)
    returns (r: Result, ghost end: PassEnd)
    requires d.Valid() && Separate(pairs) && OneWinner(pairs) && k == |log| < |pairs|
    requires present == Exists(t, pairs[k].from)
    requires Underway(pairs, log, t, e, d.tree, d.dirty, claimed, journalFile)
    requires FineBefore(log) && !Crashed(log) && !CutShort(log)
    modifies d
    ensures d.Valid() && Passed(pairs, log + [r], t, e, d.tree, d.dirty, claimed, journalFile)
    ensures r != Tried(Dead) ==> Underway(pairs, log + [r], t, e, d.tree, d.dirty, claimed, journalFile)
    ensures Concluded(d, pairs, log + [r], end, t, e)
    ensures end == PassEnd(old(d.tick), d.tick, d.tree, d.dirty) && old(d.tick) <= d.tick
    ensures Crashed(log + [r]) <==> r == Tried(Dead)
    ensures CutShort(log + [r]) <==> r in {Tried(Partial), Tried(Thrown)}
    ensures Receipts(pairs, log + [r]) == Receipts(pairs, log) + ReceiptOf(pairs[k], r)
    ensures r == Tried(Dead) ==> d.dirty == {}
    ensures r == Tried(Dead) <==> d.PowerLost(old(d.tick), d.tick)
  {
    r := PassOne(d, pairs, log, k, present, claimed, journalFile, t, e);
    NextInLog(pairs, log, r);
    end := PassEnd(old(d.tick), d.tick, d.tree, d.dirty);
  }

  /** One pass over the pairs, in order, up to the first error. */
  method MovePairs(d: Disk, pairs: seq<Pair>, claimed: set<Path>, journalFile: Path)
    returns (log: seq<Result>, steps: seq<Step>, x: Exec, ghost end: PassEnd)
    requires d.Valid() && Separate(pairs) && OneWinner(pairs)
    modifies d
    ensures d.Valid() && |log| <= |pairs| && steps == Receipts(pairs, log)
    ensures Passed(pairs, log, old(d.tree), old(d.dirty), d.tree, d.dirty, claimed, journalFile)
    ensures !x.Died? ==> AllShow(pairs, log, old(d.tree), d.tree)
    ensures Concluded(d, pairs, log, end, old(d.tree), old(d.dirty)) && end.tree == d.tree && end.dirty == d.dirty
    ensures old(d.tick) <= end.since <= end.till <= d.tick
    ensures x.Ok? ==> |log| == |pairs|
    ensures x.Ok? || x.Failed? || x.Died?
    ensures (x.Died? <==> Crashed(log)) && (x.Failed? <==> CutShort(log))
    ensures x.Died? ==> d.dirty == {}
    ensures x.Died? <==> d.PowerLost(old(d.tick), d.tick)
  {
    log, steps, x := [], [], Ok;
    end := PassEnd(d.tick, d.tick, d.tree, d.dirty);
    var present := set i | 0 <= i < |pairs| && Exists(d.tree, pairs[i].from);
    var k := 0;
    NothingYet(pairs, d.tree, d.dirty, claimed, journalFile);
    while k < |pairs| && x.Ok?
      invariant k == |log| && d.Valid() && InPass(pairs, log, steps, x)
      invariant Passed(pairs, log, old(d.tree), old(d.dirty), d.tree, d.dirty, claimed, journalFile)
      invariant x.Died? || AllShow(pairs, log, old(d.tree), d.tree)
      invariant Concluded(d, pairs, log, end, old(d.tree), old(d.dirty)) && end.tree == d.tree && end.dirty == d.dirty
      invariant old(d.tick) <= end.since <= end.till <= d.tick
      invariant (x.Died? <==> d.PowerLost(old(d.tick), d.tick)) && (x.Died? ==> d.dirty == {})
    {
      var r;
      r, end := Advance(d, pairs, log, k, k in present, claimed, journalFile, old(d.tree), old(d.dirty));
      log := log + [r];
      steps := steps + ReceiptOf(pairs[k], r);
      x := ResultOf(r);
      k := k + 1;
    }
  }

  /** An error ends the loop. */
  function ResultOf(r: Result): Exec {
    if r == Tried(Dead) then Died else if r in {Tried(Partial), Tried(Thrown)} then Failed else Ok
  }

  /** The log, its receipts and the result so far. */
  ghost predicate InPass(pairs: seq<Pair>, log: seq<Result>, steps: seq<Step>, x: Exec) {
    && |log| <= |pairs| && steps == Receipts(pairs, log) && FineBefore(log) && !x.Exdev?
    && (x.Died? <==> Crashed(log)) && (x.Failed? <==> CutShort(log))
  }

  lemma NothingTold(pairs: seq<Pair>, t: Tree, e: set<Path>, claimed: set<Path>, journalFile: Path)
    ensures Tells(pairs, 0, false, Receipts(pairs, []), t, e, t, e, claimed, journalFile)
  {
  }

  lemma NothingYet(pairs: seq<Pair>, t: Tree, e: set<Path>, claimed: set<Path>, journalFile: Path)
    ensures Passed(pairs, [], t, e, t, e, claimed, journalFile) && AllShow(pairs, [], t, t)
  {
  }

  /** Writes the journal after a pass that ended with `x`, and may lose power over it. */
  method Record(d: Disk, j: Journal, steps: seq<Step>, x: Exec) returns (x': Exec)
    requires d.Valid() && (x.Ok? || x.Failed?)
    modifies d, j
    ensures d.Valid() && old(d.tick) <= d.tick && j.steps == Journaled(old(j.steps), steps, j.writes(old(j.tick)))
    ensures Untouched(old(d.tree), old(d.dirty), d.tree, d.dirty) && Fades(old(d.tree), old(d.dirty), d.tree, d.dirty)
    ensures if x'.Died? then d.dirty == {} else d.tree == old(d.tree) && d.dirty == old(d.dirty)
    ensures x'.Ok? <==> x.Ok? && OnRecord(old(j.steps), steps, j.writes(old(j.tick)))
  {
    x' := x;
    var y := j.Append(steps);
    if x.Ok? || y.Died? {
      x' := y;
    }
    if y.Died? {
      d.LosePower();
    }
  }

  /** The receipts of a pass tell what it did, and what cut it short. */
  ghost predicate Recounted(d: Disk, pairs: seq<Pair>, log: seq<Result>, end: PassEnd, t: Tree, e: set<Path>,
                            claimed: set<Path>, journalFile: Path)
  {
    && |log| <= |pairs|
    && (!Crashed(log) ==> Tells(pairs, |log|, CutShort(log), Receipts(pairs, log), t, e,
                                end.tree, end.dirty, claimed, journalFile))
    && (CutShort(log) ==> CutTold(d, pairs[|log| - 1], Receipts(pairs, log), end, t, e))
  }

  /** What the end of a pass tells. */
  lemma PassIsTold(d: Disk, pairs: seq<Pair>, log: seq<Result>, end: PassEnd, t: Tree, e: set<Path>,
                   claimed: set<Path>, journalFile: Path)
    requires Separate(pairs) && OneWinner(pairs) && Concluded(d, pairs, log, end, t, e)
    requires Passed(pairs, log, t, e, end.tree, end.dirty, claimed, journalFile)
    requires Crashed(log) || AllShow(pairs, log, t, end.tree)
    ensures NoMerge(pairs, log)
    ensures (forall r | r in log && r.Tried? :: Acted(r) || r.outcome.Conflict?) || LastHindered(d, pairs, log, end, t)
    ensures Recounted(d, pairs, log, end, t, e, claimed, journalFile)
  {
    PassedDoesNotMerge(pairs, log, t, claimed, journalFile);
    NotWell(d, pairs, log, end, t, e);
    CutIsTold(d, pairs, log, end, t, e);
    if !Crashed(log) {
      ReceiptsTell(pairs, log, t, e, end.tree, end.dirty, claimed, journalFile);
    }
  }

  /** A run: the pass and, unless power was lost in it, the journal, whether the pass
      came to its end or not. `end` is the disk before the journal. */
  method Run(d: Disk, j: Journal, pairs: seq<Pair>, claimed: set<Path>, journalFile: Path)
    returns (log: seq<Result>, x: Exec, ghost end: PassEnd)
    requires d.Valid() && Separate(pairs) && OneWinner(pairs)
    modifies d, j
    ensures d.Valid() && |log| <= |pairs| && NoMerge(pairs, log)
    ensures Passed(pairs, log, old(d.tree), old(d.dirty), d.tree, d.dirty, claimed, journalFile)
    ensures Concluded(d, pairs, log, end, old(d.tree), old(d.dirty)) && old(d.tick) <= end.since <= end.till <= d.tick
    ensures x.Died? || (end.tree == d.tree && end.dirty == d.dirty)
    ensures Recounted(d, pairs, log, end, old(d.tree), old(d.dirty), claimed, journalFile)
    ensures WentWell(log, x) || LastHindered(d, pairs, log, end, old(d.tree)) || !j.writes(old(j.tick)).Done?
    ensures x.Died? ==> d.dirty == {}
    ensures x.Ok? ==> |log| == |pairs| && !CutShort(log) && !Crashed(log)
    ensures x.Ok? ==> OnRecord(old(j.steps), Receipts(pairs, log), j.writes(old(j.tick)))
    ensures Crashed(log) ==> d.PowerLost(old(d.tick), d.tick) && j.steps == old(j.steps)
    ensures !Crashed(log) ==> j.steps == Journaled(old(j.steps), Receipts(pairs, log), j.writes(old(j.tick)))
  {
    var steps;
    log, steps, x, end := MovePairs(d, pairs, claimed, journalFile);
    PassIsTold(d, pairs, log, end, old(d.tree), old(d.dirty), claimed, journalFile);
    if !x.Died? {
      x := Record(d, j, steps, x);
      PassedStays(pairs, log, old(d.tree), old(d.dirty), end.tree, end.dirty, d.tree, d.dirty, claimed, journalFile);
    }
  }

  // ------------------------------------------------------------ old names, same directory

  /** A pair that needs nothing: no source, or a conflict already journaled. */
  ghost predicate Quiet(p: Pair, t: Tree, steps: seq<Step>) {
    || !Exists(t, p.from)
    || (Exists(t, p.to) && !FileFree(t, p.to) && Step(p.from, p.to, SkippedConflict) in steps)
  }

  ghost predicate AllQuiet(pairs: seq<Pair>, t: Tree, steps: seq<Step>) {
    forall i | 0 <= i < |pairs| :: Quiet(pairs[i], t, steps)
  }

  /** Nothing but directories goes away outside `from`. */
  ghost predicate Keeps(t: Tree, t': Tree, from: Path) {
    forall p | p in t && !t[p].Dir? && !Under(p, from) :: p in t' && t'[p] == t[p]
  }

  lemma KeepsTwice(t: Tree, u: Tree, v: Tree, from: Path)
    requires Keeps(t, u, from) && Keeps(u, v, from)
    ensures Keeps(t, v, from)
  {
  }

  /** Makes room for the destination, scaffolding or nothing, and renames. */
  method Restyle(d: Disk, p: Pair) returns (x: Exec)
    requires d.Valid() && Apart(p.from, p.to) && p.to != [] && FileFree(d.tree, p.to)
    modifies d
    ensures d.Valid() && Conserved(old(d.tree), old(d.dirty), d.tree, d.dirty, p.from, p.to)
    ensures OnlyWithin(old(d.tree), old(d.dirty), d.tree, d.dirty, p.to)
    ensures Keeps(old(d.tree), d.tree, p.from) && BeyondBoth(old(d.tree), d.tree, p.from, p.to)
    ensures x.Ok? ==> !Exists(d.tree, p.from)
    ensures d.Accounts(old(d.tick), d.tick, x)
  {
    if !Exists(d.tree, p.to) {
      x := d.MakeDir(Parent(p.to));
    } else {
      x := d.RemoveScaffold(p.to);
    }
    if x.Ok? {
      label ready:
      x := d.Rename(p.from, p.to);
      Compose(old(d.tree), old(d.dirty), old@ready(d.tree), old@ready(d.dirty), d.tree, d.dirty, p.from, p.to);
      WithinTwice(old(d.tree), old(d.dirty), old@ready(d.tree), old@ready(d.dirty), d.tree, d.dirty, p.to);
      KeepsTwice(old(d.tree), old@ready(d.tree), d.tree, p.from);
    }
  }

  /** Renamed where there is a source and no file in the way, else a conflict. */
  ghost function StateReceipt(p: Pair, t: Tree): seq<Step> {
    if !Exists(t, p.from) then []
    else if FileFree(t, p.to) then [Step(p.from, p.to, Renamed)]
    else [Step(p.from, p.to, SkippedConflict)]
  }

  /** The receipts of the first `n` pairs, with no two for one place. */
  ghost function StateReceipts(pairs: seq<Pair>, n: nat, t: Tree): seq<Step>
    requires n <= |pairs|
  {
    if n == 0 then [] else StateReceipts(pairs, n - 1, t) + StateReceipt(pairs[n - 1], t)
  }

  ghost predicate PlacesDiffer(pairs: seq<Pair>) {
    forall i, j | 0 <= i < j < |pairs| :: pairs[i].to != pairs[j].to
  }

  /** The pairs from the k-th on find everything as it was. */
  ghost predicate SameFrom(pairs: seq<Pair>, k: nat, t: Tree, u: Tree) {
    forall i | k <= i < |pairs| :: Same(t, u, pairs[i].from) && Same(t, u, pairs[i].to)
  }

  lemma SameFromNext(pairs: seq<Pair>, k: nat, t: Tree, u: Tree, e: set<Path>, v: Tree, f: set<Path>)
    requires Separate(pairs) && PlacesDiffer(pairs) && k < |pairs| && SameFrom(pairs, k, t, u)
    requires BeyondBoth(u, v, pairs[k].from, pairs[k].to) && OnlyWithin(u, e, v, f, pairs[k].to)
    ensures SameFrom(pairs, k + 1, t, v)
  {
    forall i | k < i < |pairs| ensures Same(t, v, pairs[i].from) && Same(t, v, pairs[i].to) {
      assert pairs[k].to != pairs[i].to && Apart(pairs[k].to, pairs[i].to) && Apart(pairs[k].from, pairs[i].from);
      SameElsewhere(pairs[k].from, pairs[k].to, u, e, v, f, pairs[i].from);
      SameElsewhere(pairs[k].from, pairs[k].to, u, e, v, f, pairs[i].to);
    }
  }

  lemma StateReceiptAlike(p: Pair, t: Tree, u: Tree)
    requires Same(t, u, p.from) && Same(t, u, p.to)
    ensures StateReceipt(p, t) == StateReceipt(p, u)
  {
    ExistsAlike(t, u, p.from);
    ExistsAlike(t, u, p.to);
  }

  lemma NextReceipt(pairs: seq<Pair>, k: nat, t: Tree, u: Tree, e: set<Path>, v: Tree, f: set<Path>)
    requires Separate(pairs) && PlacesDiffer(pairs) && k < |pairs| && SameFrom(pairs, k, t, u)
    requires BeyondBoth(u, v, pairs[k].from, pairs[k].to) && OnlyWithin(u, e, v, f, pairs[k].to)
    ensures SameFrom(pairs, k + 1, t, v)
    ensures StateReceipts(pairs, k + 1, t) == StateReceipts(pairs, k, t) + StateReceipt(pairs[k], u)
  {
    StateReceiptAlike(pairs[k], t, u);
    SameFromNext(pairs, k, t, u, e, v, f);
  }

  /** One pair: nothing there, taken outright, scaffolding replaced, or a conflict. */
  method StatePair(d: Disk, p: Pair) returns (receipt: seq<Step>, x: Exec)
    requires d.Valid() && Apart(p.from, p.to) && p.to != []
    modifies d
    ensures d.Valid() && Conserved(old(d.tree), old(d.dirty), d.tree, d.dirty, p.from, p.to)
    ensures OnlyWithin(old(d.tree), old(d.dirty), d.tree, d.dirty, p.to)
    ensures x.Died? || (Keeps(old(d.tree), d.tree, p.from) && BeyondBoth(old(d.tree), d.tree, p.from, p.to))
    ensures x.Ok? ==> receipt == StateReceipt(p, old(d.tree))
    ensures x.Ok? ==> Quiet(p, d.tree, receipt)
    ensures d.Accounts(old(d.tick), d.tick, x)
    ensures x.Died? ==> d.dirty == {}
    ensures x.Ok? && Exists(old(d.tree), p.from) && FileFree(old(d.tree), p.to) ==>
              !Exists(d.tree, p.from) && receipt == [Step(p.from, p.to, Renamed)]
    ensures !x.Ok? ==> receipt == []
    ensures forall s | s in receipt :: s == Step(p.from, p.to, s.action) && !s.action.PartialCopy?
    ensures Quiet(p, old(d.tree), [Step(p.from, p.to, SkippedConflict)]) ==>
              x.Ok? && d.tree == old(d.tree) && d.dirty == old(d.dirty)
              && (receipt == [] || receipt == [Step(p.from, p.to, SkippedConflict)])
    ensures receipt == [Step(p.from, p.to, SkippedConflict)] ==> Exists(old(d.tree), p.from)
  {
    receipt, x := [], Ok;
    if !Exists(d.tree, p.from) { return; }
    if Exists(d.tree, p.to) && !FileFree(d.tree, p.to) {
      return [Step(p.from, p.to, SkippedConflict)], Ok;
    }
    x := Restyle(d, p);
    if x.Ok? {
      receipt := [Step(p.from, p.to, Renamed)];
    } else if x.Died? {
      label dead:
      d.LosePower();
      WithinTwice(old(d.tree), old(d.dirty), old@dead(d.tree), old@dead(d.dirty), d.tree, d.dirty, p.to);
    }
  }

  /** All pairs in order, up to the first error. `known` are conflicts on record: a
      tree where nothing is to be done but report them is left alone. */
  method StatePass(d: Disk, pairs: seq<Pair>, ghost known: seq<Step>)
    returns (steps: seq<Step>, x: Exec, ghost n: nat)
    requires d.Valid() && Separate(pairs)
    modifies d
    ensures d.Valid() && Placed(pairs, old(d.tree), old(d.dirty), d.tree, d.dirty)
    ensures Elsewhere(pairs, old(d.tree), old(d.dirty), d.tree, d.dirty)
    ensures !x.Ok? || AllQuiet(pairs, d.tree, steps)
    ensures n <= |pairs| && (x.Ok? <==> n == |pairs|)
    ensures PlacesDiffer(pairs) ==> steps == StateReceipts(pairs, n, old(d.tree))
    ensures d.Accounts(old(d.tick), d.tick, x)
    ensures x.Died? ==> d.dirty == {}
    ensures AllQuiet(pairs, old(d.tree), known) ==>
              && x.Ok? && d.tree == old(d.tree) && d.dirty == old(d.dirty)
              && forall s | s in steps :: KnownConflict(known, s)
  {
    steps, x, n := [], Ok, 0;
    for k := 0 to |pairs|
      invariant d.Valid() && x.Ok? && d.Accounts(old(d.tick), d.tick, x) && n == k
      invariant !PlacesDiffer(pairs) || (steps == StateReceipts(pairs, k, old(d.tree))
                                         && SameFrom(pairs, k, old(d.tree), d.tree))
      invariant !x.Ok? || Placed(pairs, old(d.tree), old(d.dirty), d.tree, d.dirty)
      invariant !x.Ok? || Elsewhere(pairs, old(d.tree), old(d.dirty), d.tree, d.dirty)
      invariant !x.Ok? || AllQuiet(pairs[..k], d.tree, steps)
      invariant AllQuiet(pairs, old(d.tree), known) ==>
                  d.tree == old(d.tree) && d.dirty == old(d.dirty) && forall s | s in steps :: KnownConflict(known, s)
    {
      ghost var t, e, since := d.tree, d.dirty, d.tick;
      var receipt;
      receipt, x := StatePair(d, pairs[k]);
      PlacedStep(pairs, k, old(d.tree), old(d.dirty), t, e, d.tree, d.dirty);
      ElsewhereNext(pairs, k, old(d.tree), old(d.dirty), t, e, d.tree, d.dirty);
      d.AccountsTwice(old(d.tick), since, d.tick, Ok, x);
      if !x.Ok? { return; }
      AllQuietNext(pairs, k, t, e, d.tree, d.dirty, steps, receipt);
      if PlacesDiffer(pairs) {
        NextReceipt(pairs, k, old(d.tree), t, e, d.tree, d.dirty);
      }
      steps, n := steps + receipt, k + 1;
    }
    assert pairs[..|pairs|] == pairs;
  }

  /** Brings old names up to date. On its own result it changes nothing, neither
      the tree nor the journal. `lost` tells that power went before the journal. */
  method MigrateStateTree(d: Disk, j: Journal, pairs: seq<Pair>)
    returns (steps: seq<Step>, x: Exec, lost: bool, ghost n: nat)
    requires d.Valid() && Separate(pairs)
    modifies d, j
    ensures d.Valid() && Placed(pairs, old(d.tree), old(d.dirty), d.tree, d.dirty)
    ensures Elsewhere(pairs, old(d.tree), old(d.dirty), d.tree, d.dirty)
    ensures lost ==> d.PowerLost(old(d.tick), d.tick) && x.Died? && j.steps == old(j.steps)
    ensures x.Died? ==> d.dirty == {}
    ensures !lost ==> j.steps == Journaled(old(j.steps), steps, j.writes(old(j.tick)))
    ensures n <= |pairs| && (PlacesDiffer(pairs) ==> steps == StateReceipts(pairs, n, old(d.tree)))
    ensures x.Ok? ==> n == |pairs| && OnRecord(old(j.steps), steps, j.writes(old(j.tick)))
    ensures !x.Ok? || AllQuiet(pairs, d.tree, j.steps)
    ensures x.Ok? || d.Trouble(old(d.tick), d.tick) || d.Crossed(old(d.tick), d.tick) || !j.writes(old(j.tick)).Done?
    ensures old(d.tick) <= d.tick
    ensures AllQuiet(pairs, old(d.tree), old(j.steps)) ==>
              x.Ok? && d.tree == old(d.tree) && d.dirty == old(d.dirty) && j.steps == old(j.steps)
  {
    steps, x, n := StatePass(d, pairs, j.steps);
    lost := x.Died?;
    if !lost {
      if AllQuiet(pairs, old(d.tree), old(j.steps)) {
        ConflictsOnce(j.steps, steps);
      }
      FreshKeeps(j.steps, steps);
      label passed:
      var y := j.Append(steps);
      if x.Ok? || y.Died? {
        x := y;
      }
      if y.Died? {
        d.LosePower();
        PlacedStays(pairs, old(d.tree), old(d.dirty), old@passed(d.tree), old@passed(d.dirty), d.tree, d.dirty);
        ElsewhereStays(pairs, old(d.tree), old(d.dirty), old@passed(d.tree), old@passed(d.dirty), d.tree, d.dirty);
      }
    }
  }

  lemma AllQuietNext(pairs: seq<Pair>, k: nat, t: Tree, d: set<Path>, t': Tree, d': set<Path>,
                     steps: seq<Step>, receipt: seq<Step>)
    requires Separate(pairs) && k < |pairs| && AllQuiet(pairs[..k], t, steps)
    requires Keeps(t, t', pairs[k].from) && OnlyWithin(t, d, t', d', pairs[k].to)
    ensures Quiet(pairs[k], t', receipt) ==> AllQuiet(pairs[..k + 1], t', steps + receipt)
  {
  }

  const OLD_NAMES: seq<string> :=
    ["assess-review", "comment-review", "github-outbox", "repos", "github-watchlist.json", "external"]

  const NEW_TOPS: set<string> := {"review", "data", "outbox", "cache", "clones", "watchlist.json"}

  /** Where the old names belong, in the current layout or the flat one. */
  function NewPlaces(current: bool): (places: seq<Path>)
    ensures |places| == |OLD_NAMES|
    ensures forall place | place in places :: place != [] && place[0] in NEW_TOPS
  {
    [["review", "assess"], ["review", "comments"]]
    + (if current then [["data", "outbox"], ["cache", "clones", "watched"]] else [["outbox"], ["clones", "watched"]])
    + [["watchlist.json"], if current then ["cache", "clones", "external"] else ["clones", "external"]]
  }

  /** The pairs of a data root; clones of external repositories only where they
      live under that root. */
  function StatePairs(root: Path, current: bool, external: bool): seq<Pair> {
    seq(if external then 6 else 5, i requires 0 <= i < 6 =>
      Pair(root + [OLD_NAMES[i]], root + NewPlaces(current)[i], false))
  }

  /** The places of clones, in the current layout below the cache. */
  function Clones(current: bool): Path {
    (if current then ["cache"] else []) + ["clones"]
  }

  /** Which old names of a root are moved. */
  lemma OldNamesMove(root: Path, current: bool, external: bool, name: string)
    ensures (exists p :: p in StatePairs(root, current, external) && p.from == root + [name])
       <==> name in {"assess-review", "comment-review", "github-outbox", "repos", "github-watchlist.json"}
            || (external && name == "external")
    ensures forall p | p in StatePairs(root, current, external) :: !p.contended
  {
    var pairs := StatePairs(root, current, external);
    forall i | 0 <= i < |pairs| ensures pairs[i].from == root + [name] <==> OLD_NAMES[i] == name {
      assert pairs[i].from[|root|] == OLD_NAMES[i] && (root + [name])[|root|] == name;
    }
    forall i | 0 <= i < |pairs| && OLD_NAMES[i] == name ensures pairs[i] in pairs && pairs[i].from == root + [name] {
    }
    assert OLD_NAMES[0] == "assess-review" && OLD_NAMES[1] == "comment-review" && OLD_NAMES[2] == "github-outbox"
           && OLD_NAMES[3] == "repos" && OLD_NAMES[4] == "github-watchlist.json" && OLD_NAMES[5] == "external";
  }

  /** Which old name goes where. */
  lemma OldNamesGo(current: bool)
    ensures OLD_NAMES[0] == "assess-review" && NewPlaces(current)[0] == ["review", "assess"]
    ensures OLD_NAMES[1] == "comment-review" && NewPlaces(current)[1] == ["review", "comments"]
    ensures OLD_NAMES[2] == "github-outbox" && NewPlaces(current)[2] == (if current then ["data"] else []) + ["outbox"]
    ensures OLD_NAMES[3] == "repos" && NewPlaces(current)[3] == Clones(current) + ["watched"]
    ensures OLD_NAMES[4] == "github-watchlist.json" && NewPlaces(current)[4] == ["watchlist.json"]
    ensures OLD_NAMES[5] == "external" && NewPlaces(current)[5] == Clones(current) + ["external"]
  {
    assert [] + ["outbox"] == ["outbox"] && [] + ["clones"] == ["clones"];
  }

  lemma NamesDiffer()
    ensures forall i, j | 0 <= i < j < |OLD_NAMES| :: OLD_NAMES[i] != OLD_NAMES[j]
    ensures forall n, m | n in OLD_NAMES && m in NEW_TOPS :: n != m
  {
  }

  /** They do not get in each other's way. */
  lemma PlacesApart(current: bool, i: nat, j: nat)
    requires i < j < |OLD_NAMES|
    ensures Apart(NewPlaces(current)[i], NewPlaces(current)[j])
  {
    var a, b := NewPlaces(current)[i], NewPlaces(current)[j];
    assert a[0] != b[0] || a[1] != b[1] || a[2] != b[2];
  }

  lemma StatePairsAreSeparate(root: Path, current: bool, external: bool)
    ensures Separate(StatePairs(root, current, external))
  {
    var pairs, places := StatePairs(root, current, external), NewPlaces(current);
    NamesDiffer();
    forall i, j | 0 <= i < |pairs| && 0 <= j < |pairs|
      ensures Apart(pairs[i].from, pairs[j].to) && pairs[i].to != []
      ensures i < j ==> Apart(pairs[i].from, pairs[j].from) && Apart(pairs[i].to, pairs[j].to)
    {
      assert places[j] in places && places[i] in places;
      ApartInside(root, [OLD_NAMES[i]], places[j]);
      if i < j {
        ApartInside(root, [OLD_NAMES[i]], [OLD_NAMES[j]]);
        PlacesApart(current, i, j);
        ApartUnder(root, places[i], places[j]);
      }
    }
  }
}
