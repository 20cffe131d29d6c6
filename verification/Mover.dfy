/** Moving one pair: rename, or across devices copy, verify, sync and delete, on a
    machine that may lose power at every step. */
module Mover {
  import opened FileTree

  /** What comes of one file-system call: done; refused; done, but a rename meets
      another device; power lost before or after. */
  datatype Fate = Done | Refused | CrossDevice | Dies | DoneThenDies

  datatype Exec = Ok | Failed | Exdev | Died

  function Verdict(f: Fate): Exec {
    match f
    case Done => Ok
    case Refused => Failed
    case CrossDevice => Exdev
    case Dies => Died
    case DoneThenDies => Died
  }

  /** How moving one pair ended. `Partial` is the interrupted copy, `Thrown` any
      other error, `Dead` a loss of power. */
  datatype Outcome = Moved | CopiedOver | Conflict | Partial | Thrown | Dead

  /** Every safe file outside `from` stays put; every safe file inside is still
      there or at its new place. */
  ghost predicate Conserved(t: Tree, d: set<Path>, t': Tree, d': set<Path>, from: Path, to: Path) {
    forall p | p in t && t[p].File? && p !in d ::
      || SafeAt(t', d', p, t[p])
      || (Under(p, from) && SafeAt(t', d', Relocate(p, from, to), t[p]))
  }

  /** Every safe file inside is at its new place. */
  ghost predicate Arrived(t: Tree, d: set<Path>, t': Tree, d': set<Path>, from: Path, to: Path) {
    forall p | p in t && t[p].File? && p !in d && Under(p, from) :: SafeAt(t', d', Relocate(p, from, to), t[p])
  }

  function RenamedSet(d: set<Path>, from: Path, to: Path): set<Path> {
    (set p | p in d && !Under(p, from)) + (set p | p in d && Under(p, from) :: Relocate(p, from, to))
  }

  lemma RenameConserves(t: Tree, d: set<Path>, from: Path, to: Path)
    requires d <= t.Keys && Apart(from, to) && !Exists(t, to)
    ensures RenamedSet(d, from, to) <= Renamed(t, from, to).Keys
    ensures Conserved(t, d, Renamed(t, from, to), RenamedSet(d, from, to), from, to)
    ensures Arrived(t, d, Renamed(t, from, to), RenamedSet(d, from, to), from, to)
    ensures !Exists(Renamed(t, from, to), from)
    ensures forall p | p in d && Under(p, from) :: Relocate(p, from, to) in RenamedSet(d, from, to)
    ensures OnlyWithin(t, d, Renamed(t, from, to), RenamedSet(d, from, to), to)
    ensures forall p | p in t && !Under(p, from) :: p in Renamed(t, from, to) && Renamed(t, from, to)[p] == t[p]
  {
    forall p | p in t
      ensures Under(p, from) ==> Relocate(p, from, to) in Renamed(t, from, to)
                                 && Renamed(t, from, to)[Relocate(p, from, to)] == t[p]
                                 && (p !in d ==> Relocate(p, from, to) !in RenamedSet(d, from, to))
    {
      if Under(p, from) {
        RelocateBack(p, from, to);
        if Relocate(p, from, to) in RenamedSet(d, from, to) {
          var q :| q in d && Under(q, from) && Relocate(q, from, to) == Relocate(p, from, to);
          RelocateBack(q, from, to);
        }
      }
    }
    forall q | q in Renamed(t, from, to) ensures !Under(q, from) && (q in t || Under(q, to)) {
      if q in Images(t, from, to) {
        ImagesAre(t, from, to, q);
        if Under(q, from) {
          UnderBoth(q, from, to);
        }
      }
    }
  }

  lemma UnderBoth(q: Path, a: Path, b: Path)
    requires Under(q, a) && Under(q, b)
    ensures !Apart(a, b)
  {
  }

  function Parent(p: Path): Path {
    if p == [] then [] else p[..|p| - 1]
  }

  /** Beyond `to`, and the directory that holds it, nothing appears, and what is safe
      does not change, but may go. */
  ghost predicate OnlyWithin(t: Tree, d: set<Path>, t': Tree, d': set<Path>, to: Path) {
    forall p | p in t' && !Under(p, to) && p != Parent(to) :: p in t && (p !in d ==> t'[p] == t[p] && p !in d')
  }

  /** A rename fails there: anything but an empty directory. */
  predicate Occupied(t: Tree, to: Path) {
    exists q | q in t && Under(q, to) :: q != to || !t[q].Dir?
  }

  /** The copy can write every file under `from` in full. */
  ghost predicate Reaches(t: Tree, from: Path, got: map<Path, nat>) {
    forall p | p in t && Under(p, from) && t[p].File? :: p in got && got[p] >= |t[p].data|
  }

  /** Sources whose place is taken by a node of the other kind. */
  function Blocked(t: Tree, from: Path, to: Path): set<Path> {
    set p | p in t && Under(p, from) && Relocate(p, from, to) in t && t[Relocate(p, from, to)].Dir? != t[p].Dir?
  }

  /** Outside `root` everything is still there. */
  ghost predicate Beyond(t: Tree, t': Tree, root: Path) {
    forall p | p in t && !Under(p, root) :: p in t' && t'[p] == t[p]
  }

  ghost predicate BeyondBoth(t: Tree, t': Tree, from: Path, to: Path) {
    forall p | p in t && !Under(p, from) && !Under(p, to) :: p in t' && t'[p] == t[p]
  }

  /** Nothing under `root` has changed. */
  ghost predicate Same(t: Tree, t': Tree, root: Path) {
    forall p | Under(p, root) :: (p in t' <==> p in t) && (p in t ==> t'[p] == t[p])
  }

  lemma ExistsAlike(t: Tree, u: Tree, root: Path)
    requires Same(t, u, root)
    ensures Exists(t, root) <==> Exists(u, root)
    ensures FileFree(t, root) <==> FileFree(u, root)
    ensures Occupied(t, root) <==> Occupied(u, root)
  {
    forall q | Under(q, root) ensures (q in u <==> q in t) && (q in t ==> u[q] == t[q]) {
    }
    if Exists(t, root) {
      var q :| q in t && Under(q, root);
      assert q in u;
    }
    if Exists(u, root) {
      var q :| q in u && Under(q, root);
      assert q in t;
    }
    if Occupied(t, root) {
      var q :| q in t && Under(q, root) && (q != root || !t[q].Dir?);
      assert q in u;
    }
    if Occupied(u, root) {
      var q :| q in u && Under(q, root) && (q != root || !u[q].Dir?);
      assert q in t;
    }
  }

  lemma BlockedAlike(t: Tree, u: Tree, from: Path, to: Path)
    requires Same(t, u, from) && Same(t, u, to)
    ensures Blocked(t, from, to) == Blocked(u, from, to)
  {
    forall p | Under(p, from) ensures p in Blocked(t, from, to) <==> p in Blocked(u, from, to) {
      RelocateBack(p, from, to);
      assert Under(Relocate(p, from, to), to);
    }
  }

  lemma ReachesAlike(t: Tree, u: Tree, from: Path, got: map<Path, nat>)
    requires Same(t, u, from)
    ensures Reaches(t, from, got) <==> Reaches(u, from, got)
  {
    if Reaches(t, from, got) {
      forall p | p in u && Under(p, from) && u[p].File? ensures p in got && got[p] >= |u[p].data| {
        assert p in t;
      }
    }
    if Reaches(u, from, got) {
      forall p | p in t && Under(p, from) && t[p].File? ensures p in got && got[p] >= |t[p].data| {
        assert p in u;
      }
    }
  }

  /** The frame of one move leaves everything apart from it as it was. */
  lemma SameElsewhere(from: Path, to: Path, u: Tree, e: set<Path>, v: Tree, f: set<Path>, root: Path)
    requires BeyondBoth(u, v, from, to) && OnlyWithin(u, e, v, f, to)
    requires Apart(root, from) && Apart(root, to) && to != []
    ensures Same(u, v, root)
  {
    forall q | Under(q, root) ensures !Under(q, from) && !Under(q, to) && q != Parent(to) {
      if Under(q, from) {
        UnderBoth(q, root, from);
      }
      if Under(q, to) {
        UnderBoth(q, root, to);
      }
    }
  }

  /** What makes way for `to` leaves a source apart from it as it is. */
  lemma SourceStays(t: Tree, d: set<Path>, u: Tree, e: set<Path>, from: Path, to: Path)
    requires Apart(from, to) && to != [] && OnlyWithin(t, d, u, e, to) && Beyond(t, u, to)
    ensures Same(t, u, from)
  {
    forall p | Under(p, from) ensures !Under(p, to) && p != Parent(to) {
      if Under(p, to) {
        UnderBoth(p, from, to);
      }
    }
  }

  lemma NothingBlocks(t: Tree, from: Path, to: Path)
    requires !Exists(t, to)
    ensures Blocked(t, from, to) == {}
  {
  }

  /** Nothing appears, and what is safe does not change, but may go. */
  ghost predicate Fades(t: Tree, d: set<Path>, t': Tree, d': set<Path>) {
    forall p | p in t' :: p in t && (p !in d ==> t'[p] == t[p] && p !in d')
  }

  lemma WithinTwice(t: Tree, d: set<Path>, u: Tree, e: set<Path>, v: Tree, f: set<Path>, to: Path)
    requires OnlyWithin(t, d, u, e, to) && OnlyWithin(u, e, v, f, to)
    ensures OnlyWithin(t, d, v, f, to)
  {
  }

  /** Every safe file stays put. */
  ghost predicate Untouched(t: Tree, d: set<Path>, t': Tree, d': set<Path>) {
    forall p | p in t && t[p].File? && p !in d :: SafeAt(t', d', p, t[p])
  }

  /** Every regular file under `from` has a copy of the same size. */
  predicate SizesAgree(t: Tree, from: Path, to: Path) {
    forall p | p in t && Under(p, from) && t[p].File? ::
      Relocate(p, from, to) in t && t[Relocate(p, from, to)].File?
      && |t[Relocate(p, from, to)].data| == |t[p].data|
  }

  /** Every regular file under `from` has a full copy. */
  predicate FullCopy(t: Tree, from: Path, to: Path) {
    forall p | p in t && Under(p, from) && t[p].File? ::
      Relocate(p, from, to) in t && t[Relocate(p, from, to)] == t[p]
  }

  /** What is under `to` came from this copy. */
  ghost predicate OnlyPrefixes(t: Tree, from: Path, to: Path) {
    forall p | p in t && Under(p, from) && t[p].File? && Relocate(p, from, to) in t ::
      exists k: nat :: t[Relocate(p, from, to)] == Cut(t[p], k)
  }

  /** Passing the size verification implies a full copy. */
  lemma VerifiedIsFull(t: Tree, from: Path, to: Path)
    requires SizesAgree(t, from, to) && OnlyPrefixes(t, from, to)
    ensures FullCopy(t, from, to)
  {
  }

  /** A copy to a free place does not touch the files that were there. */
  lemma CopyLeavesAlone(t: Tree, d: set<Path>, from: Path, to: Path, got: map<Path, nat>)
    requires Apart(from, to) && !Exists(t, to)
    ensures Untouched(t, d, Copied(t, from, to, got), d + Written(t, from, to, got))
  {
  }

  lemma CopyStaysWithin(t: Tree, d: set<Path>, from: Path, to: Path, got: map<Path, nat>)
    ensures Beyond(t, Copied(t, from, to, got), to)
    ensures OnlyWithin(t, d, Copied(t, from, to, got), d + Written(t, from, to, got), to)
  {
  }

  lemma ReachingIsFull(t: Tree, from: Path, to: Path, got: map<Path, nat>)
    requires Apart(from, to) && Reaches(t, from, got)
    ensures FullCopy(Copied(t, from, to, got), from, to)
  {
    var c := Copied(t, from, to, got);
    forall p | p in c && Under(p, from) && c[p].File?
      ensures Relocate(p, from, to) in c && c[Relocate(p, from, to)] == c[p]
    {
      if Under(p, to) {
        UnderBoth(p, from, to);
      }
      RelocateBack(p, from, to);
      ImagesAre(t, from, to, p);
      assert p in t && c[p] == t[p];
      assert Relocate(p, from, to) in Images(t, from, to);
    }
  }

  lemma CopyIsPrefix(t: Tree, from: Path, to: Path, got: map<Path, nat>)
    requires Apart(from, to)
    requires forall p | p in t && Under(p, from) && t[p].File? :: p in got || Relocate(p, from, to) !in t
    ensures OnlyPrefixes(Copied(t, from, to, got), from, to)
  {
    var c := Copied(t, from, to, got);
    forall p | p in c && Under(p, from) && c[p].File? && Relocate(p, from, to) in c
      ensures exists k: nat :: c[Relocate(p, from, to)] == Cut(c[p], k)
    {
      if Under(p, to) {
        UnderBoth(p, from, to);
      }
      RelocateBack(p, from, to);
      ImagesAre(t, from, to, p);
      assert c[p] == t[p] && p in t;
      assert c[Relocate(p, from, to)] == Cut(c[p], got[p]);
    }
  }

  /** Once the files are safe at both places, the source may go, even in part. */
  lemma DeleteConserves(t: Tree, d: set<Path>, u: Tree, e: set<Path>, v: Tree, f: set<Path>, from: Path, to: Path)
    requires Apart(from, to) && Untouched(t, d, u, e) && Arrived(t, d, u, e, from, to) && f <= e
    requires forall p | p in u && !Under(p, from) :: p in v && v[p] == u[p]
    ensures Conserved(t, d, v, f, from, to) && Arrived(t, d, v, f, from, to)
  {
  }

  lemma Compose(t: Tree, d: set<Path>, u: Tree, e: set<Path>, v: Tree, f: set<Path>, from: Path, to: Path)
    requires Untouched(t, d, u, e)
    ensures Conserved(u, e, v, f, from, to) ==> Conserved(t, d, v, f, from, to)
    ensures Arrived(u, e, v, f, from, to) ==> Arrived(t, d, v, f, from, to)
    ensures Untouched(u, e, v, f) ==> Untouched(t, d, v, f)
  {
  }

  /** Conserved, but for files of the destination whose names the source has too. */
  ghost predicate ConservedBeside(t: Tree, d: set<Path>, t': Tree, d': set<Path>, from: Path, to: Path) {
    forall p | p in t && t[p].File? && p !in d ::
      || SafeAt(t', d', p, t[p])
      || (Under(p, from) && SafeAt(t', d', Relocate(p, from, to), t[p]))
      || (Under(p, to) && Relocate(p, to, from) in t)
  }

  /** A safe file of the destination is kept exactly if the source has nothing else
      of its name. */
  ghost predicate SourceWins(t: Tree, d: set<Path>, t': Tree, d': set<Path>, from: Path, to: Path) {
    forall q | q in t && Under(q, to) && t[q].File? && q !in d ::
      SafeAt(t', d', q, t[q]) <==> (Relocate(q, to, from) in t ==> t[Relocate(q, to, from)] == t[q])
  }

  /** What lies outside the source survives its removal. */
  lemma DeleteKeepsBeside(t: Tree, d: set<Path>, u: Tree, e: set<Path>, v: Tree, f: set<Path>, from: Path, to: Path)
    requires Apart(from, to) && f <= e && Arrived(t, d, u, e, from, to)
    requires forall p | p in u && !Under(p, from) :: p in v && v[p] == u[p]
    requires forall p | p in v :: p in u && v[p] == u[p]
    requires forall p | p in e && p in v :: p in f
    requires ConservedBeside(t, d, u, e, from, to) && SourceWins(t, d, u, e, from, to)
    ensures ConservedBeside(t, d, v, f, from, to) && SourceWins(t, d, v, f, from, to)
    ensures Arrived(t, d, v, f, from, to)
  {
  }

  lemma CopyLeavesRest(t: Tree, d: set<Path>, from: Path, to: Path, got: map<Path, nat>, d': set<Path>)
    requires Apart(from, to) && d' <= d + Written(t, from, to, got)
    ensures ConservedBeside(t, d, Copied(t, from, to, got), d', from, to)
  {
    forall p | p in t && p in Images(t, from, to) ensures Under(p, to) && Relocate(p, to, from) in t {
      ImagesAre(t, from, to, p);
    }
  }

  /** Sources are not overwritten by the copy. */
  lemma SourceIsRead(t: Tree, from: Path, to: Path, got: map<Path, nat>, p: Path)
    requires Apart(from, to) && p in t && Under(p, from)
    ensures Copied(t, from, to, got)[p] == t[p]
  {
  }

  /** With everything written in full and synced, the source wins every name. */
  lemma CopyOverwrites(t: Tree, d: set<Path>, from: Path, to: Path, got: map<Path, nat>, d': set<Path>)
    requires Apart(from, to) && FullCopy(Copied(t, from, to, got), from, to)
    requires forall p | p in t && Under(p, from) :: p in got
    requires d' <= d + Written(t, from, to, got)
    requires forall q | q in Copied(t, from, to, got) && Under(q, to) && Copied(t, from, to, got)[q].File? :: q !in d'
    ensures SourceWins(t, d, Copied(t, from, to, got), d', from, to)
  {
    var c := Copied(t, from, to, got);
    forall q | q in t && Under(q, to) && t[q].File? && q !in d
      ensures SafeAt(c, d', q, t[q]) <==> (Relocate(q, to, from) in t ==> t[Relocate(q, to, from)] == t[q])
    {
      ImagesAre(t, from, to, q);
      RelocateBack(q, to, from);
      if Relocate(q, to, from) in t {
        SourceIsRead(t, from, to, got, Relocate(q, to, from));
      }
    }
  }

  lemma CopyArrives(t: Tree, d: set<Path>, from: Path, to: Path, got: map<Path, nat>, d': set<Path>)
    requires Apart(from, to) && FullCopy(Copied(t, from, to, got), from, to)
    requires forall q | q in Copied(t, from, to, got) && Under(q, to) && Copied(t, from, to, got)[q].File? :: q !in d'
    ensures Arrived(t, d, Copied(t, from, to, got), d', from, to)
  {
  }

  // ------------------------------------------------------------ directory entries

  /** The directories the program syncs after a copy: the destination itself and
      those that hold a file; of a single file, the one that holds it. */
  function SyncedDirs(t: Tree, to: Path): set<Path> {
    (if to in t && t[to].File? then {} else {to}) + set q | q in t && Under(q, to) && t[q].File? :: Parent(q)
  }

  /** The path of a directory that lies between `to` and some file of it. */
  ghost predicate Between(t: Tree, to: Path, p: Path) {
    Under(p, to) && exists f :: f in t && t[f].File? && Under(f, p) && f != p
  }

  ghost predicate HoldsFile(t: Tree, p: Path) {
    exists g :: g in t && t[g].File? && g != [] && Parent(g) == p
  }

  lemma SyncedIf(t: Tree, to: Path, p: Path)
    requires !(to in t && t[to].File?) && Under(p, to)
    ensures p in SyncedDirs(t, to) <==> p == to || HoldsFile(t, p)
  {
  }

  /** Of a copied directory, the entries of everything in it are synced exactly if
      each directory inside that leads to a file also holds one; the entry of the
      copy itself is not. */
  lemma EntriesSyncedIff(t: Tree, to: Path)
    requires !(to in t && t[to].File?)
    ensures (forall p | Between(t, to, p) :: p in SyncedDirs(t, to))
       <==> (forall p | Between(t, to, p) && p != to :: HoldsFile(t, p))
    ensures to != [] ==> Parent(to) !in SyncedDirs(t, to)
  {
    forall p | Between(t, to, p) ensures p in SyncedDirs(t, to) <==> p == to || HoldsFile(t, p) {
      SyncedIf(t, to, p);
    }
    if to != [] {
      forall g | g in t && Under(g, to) && t[g].File? ensures Parent(g) != Parent(to) {
        assert |g| == |to| ==> g == to;
      }
    }
  }

  /** Directory `b` holds only a directory: it is not synced, and so the entry of
      `c` in it is not. */
  lemma EntriesMissed(a: string, b: string, c: string, f: string, n: Node)
    requires n.File?
    ensures Between(map[[a, b, c, f] := n], [a], [a, b])
    ensures [a, b] !in SyncedDirs(map[[a, b, c, f] := n], [a])
  {
    var t: Tree := map[[a, b, c, f] := n];
    assert Parent([a, b, c, f]) == [a, b, c];
    assert [a, b, c, f] in t;
  }

  class Disk {
    const fate: nat -> Fate
    /** How far a copy or a removal got, and what a power loss left of unsynced files. */
    const reach: nat -> map<Path, nat>
    var tick: nat
    var tree: Tree
    /** Files written but not synced. */
    var dirty: set<Path>

    constructor (fate: nat -> Fate, reach: nat -> map<Path, nat>, tree: Tree)
      ensures this.fate == fate && this.reach == reach && this.tree == tree
      ensures Valid() && tick == 0 && dirty == {}
    {
      this.fate, this.reach, this.tree, this.tick, this.dirty := fate, reach, tree, 0, {};
    }

    /** Some call in between was refused, or the last. That a rename meets another
        device is no trouble: that is what the copy is for. */
    ghost predicate Trouble(a: nat, b: nat) {
      exists k :: a <= k < b && !fate(k).Done? && !fate(k).CrossDevice?
    }

    /** Some rename in between met another device. */
    ghost predicate Crossed(a: nat, b: nat) {
      exists k :: a <= k < b && fate(k).CrossDevice?
    }

    /** Some call in between was the last. */
    ghost predicate PowerLost(a: nat, b: nat) {
      exists k :: a <= k < b && Verdict(fate(k)).Died?
    }

    /** The calls in between account for a result, and the result for the calls. */
    ghost predicate Accounts(a: nat, b: nat, x: Exec) {
      && a <= b && (x.Ok? || x.Exdev? <==> !Trouble(a, b)) && (x.Died? <==> PowerLost(a, b))
      && (x.Exdev? ==> Crossed(a, b))
    }

    lemma AccountsTwice(a: nat, b: nat, c: nat, x: Exec, y: Exec)
      requires Accounts(a, b, x) && x.Ok? && Accounts(b, c, y)
      ensures Accounts(a, c, y)
    {
    }

    /** Any call but a rename. */
    method Next() returns (done: bool, x: Exec)
      modifies `tick
      ensures done == (fate(old(tick)).Done? || fate(old(tick)).CrossDevice? || fate(old(tick)).DoneThenDies?)
      ensures x == (if fate(old(tick)).CrossDevice? then Ok else Verdict(fate(old(tick)))) && tick == old(tick) + 1
      ensures Accounts(old(tick), tick, x)
    {
      done := fate(tick).Done? || fate(tick).CrossDevice? || fate(tick).DoneThenDies?;
      x := if fate(tick).CrossDevice? then Ok else Verdict(fate(tick));
      tick := tick + 1;
    }

    method NextRename() returns (done: bool, x: Exec)
      modifies `tick
      ensures done == (fate(old(tick)).Done? || fate(old(tick)).DoneThenDies?)
      ensures x == Verdict(fate(old(tick))) && tick == old(tick) + 1 && Accounts(old(tick), tick, x)
    {
      done, x := fate(tick).Done? || fate(tick).DoneThenDies?, Verdict(fate(tick));
      tick := tick + 1;
    }

    method LosePower()
      modifies `tick, `tree, `dirty
      ensures Untouched(old(tree), old(dirty), tree, dirty) && tick == old(tick) + 1
      ensures Fades(old(tree), old(dirty), tree, dirty)
      ensures dirty == {} && tree == Torn(old(tree), old(dirty), reach(old(tick)))
      ensures old(dirty) == {} ==> tree == old(tree)
    {
      forall p | p in tree && tree[p].File? && p !in dirty
        ensures SafeAt(Torn(tree, dirty, reach(tick)), {}, p, tree[p])
      {
        TornKeepsSafe(tree, dirty, reach(tick), p, tree[p]);
      }
      tree := Torn(tree, dirty, reach(tick));
      dirty := {};
      tick := tick + 1;
    }

    ghost predicate Valid()
      reads this
    {
      dirty <= tree.Keys
    }

    /** Removes directory scaffolding, or part of it; the directory that holds it stays. */
    method RemoveScaffold(root: Path) returns (x: Exec)
      requires Valid() && root != [] && Exists(tree, root) && FileFree(tree, root)
      modifies `tick, `tree, `dirty
      ensures Valid() && Untouched(old(tree), old(dirty), tree, dirty)
      ensures OnlyWithin(old(tree), old(dirty), tree, dirty, root)
      ensures tree.Keys <= old(tree).Keys + {Parent(root)} && dirty <= old(dirty)
      ensures forall p | p in old(tree) && !old(tree)[p].Dir? :: p in tree && tree[p] == old(tree)[p]
      ensures Parent(root) in tree && (x.Ok? ==> !Exists(tree, root))
      ensures Beyond(old(tree), tree, root)
      ensures tick == old(tick) + 1 && !x.Exdev? && Accounts(old(tick), tick, x)
    {
      var done;
      done, x := Next();
      var gone, parent := reach(tick), if Parent(root) in tree then tree[Parent(root)] else Dir;
      tree := map p | p in tree && !(Under(p, root) && (done || p in gone)) :: tree[p];
      tree := tree[Parent(root) := parent];
      dirty := set p | p in dirty && p in tree;
    }

    /** The directory gets a node of its own. */
    method MakeDir(p: Path) returns (x: Exec)
      requires Valid()
      modifies `tick, `tree
      ensures Valid() && (tree == old(tree) || (p !in old(tree) && tree == old(tree)[p := Dir]))
      ensures x.Ok? ==> p in tree
      ensures tick == old(tick) + 1 && !x.Exdev? && Accounts(old(tick), tick, x)
    {
      var done;
      done, x := Next();
      if done && p !in tree {
        tree := tree[p := Dir];
      }
    }

    /** To a free place in a directory that is there. */
    method Rename(from: Path, to: Path) returns (x: Exec)
      requires Valid() && Apart(from, to) && !Exists(tree, to) && Exists(tree, Parent(to))
      modifies `tick, `tree, `dirty
      ensures Valid() && Conserved(old(tree), old(dirty), tree, dirty, from, to)
      ensures OnlyWithin(old(tree), old(dirty), tree, dirty, to)
      ensures x.Failed? || x.Exdev? ==> tree == old(tree) && dirty == old(dirty)
      ensures x.Ok? ==> !Exists(tree, from) && Arrived(old(tree), old(dirty), tree, dirty, from, to)
      ensures old(dirty) == {} ==> dirty == {}
      ensures tick == old(tick) + 1 && x == Verdict(fate(old(tick))) && Accounts(old(tick), tick, x)
      ensures Beyond(old(tree), tree, from)
    {
      var done;
      done, x := NextRename();
      if done {
        RenameConserves(tree, dirty, from, to);
        tree, dirty := Renamed(tree, from, to), RenamedSet(dirty, from, to);
      }
    }

    /** Copies as far as it gets; success means that everything was written, if
        perhaps short. A directory never replaces a file, nor the reverse. */
    method CopyTree(from: Path, to: Path) returns (x: Exec, ghost got: map<Path, nat>)
      requires Valid() && Apart(from, to)
      modifies `tick, `tree, `dirty
      ensures Valid() && !x.Exdev?
      ensures tree == Copied(old(tree), from, to, got) && dirty == old(dirty) + Written(old(tree), from, to, got)
      ensures x.Ok? ==> forall p | p in old(tree) && Under(p, from) :: p in got
      ensures x.Ok? && Reaches(old(tree), from, reach(old(tick) + 1)) ==> FullCopy(tree, from, to)
      ensures Blocked(old(tree), from, to) == {} ==> Accounts(old(tick), tick, x)
      ensures x.Ok? ==> !Trouble(old(tick), tick)
      ensures tick == old(tick) + 1 && (x.Died? <==> PowerLost(old(tick), tick))
    {
      var done;
      done, x := Next();
      var blocked := Blocked(tree, from, to);
      if x.Ok? && blocked != {} { x := Failed; }
      var r := map p | p in reach(tick) && p !in blocked :: reach(tick)[p];
      if x.Ok? {
        r := map p | p in tree && Under(p, from) :: if p in r then r[p] else 0;
        if Reaches(tree, from, reach(tick)) {
          ReachingIsFull(tree, from, to, r);
        }
      }
      got := r;
      dirty := dirty + Written(tree, from, to, r);
      tree := Copied(tree, from, to, r);
      forall q | q in Written(old(tree), from, to, got) ensures q in tree {
        ImagesAre(old(tree), from, to, q);
      }
    }

    /** Compares the size of every regular file under `from` with its copy. */
    method VerifyCopy(from: Path, to: Path) returns (x: Exec)
      modifies `tick
      ensures !x.Exdev? && (x.Ok? ==> SizesAgree(tree, from, to))
      ensures SizesAgree(tree, from, to) ==> Accounts(old(tick), tick, x)
      ensures x.Ok? ==> !Trouble(old(tick), tick)
      ensures old(tick) <= tick && (x.Died? <==> PowerLost(old(tick), tick))
    {
      x := Ok;
      var todo := set p | p in tree && Under(p, from) && tree[p].File?;
      while todo != {}
        invariant x.Ok? && Accounts(old(tick), tick, x)
        invariant forall p | p in todo :: p in tree && Under(p, from) && tree[p].File?
        invariant forall p | p in tree && Under(p, from) && tree[p].File? && p !in todo ::
          Relocate(p, from, to) in tree && tree[Relocate(p, from, to)].File?
          && |tree[Relocate(p, from, to)].data| == |tree[p].data|
      {
        var p :| p in todo;
        todo := todo - {p};
        var q := Relocate(p, from, to);
        var done;
        done, x := Next();
        if !x.Ok? { return; }
        if q !in tree || !tree[q].File? || |tree[q].data| != |tree[p].data| {
          return Failed;
        }
      }
    }

    /** Brings every regular file under `to` to the disk, then the directories that
        hold them. */
    method SyncCopy(to: Path) returns (x: Exec, dirs: set<Path>)
      requires Valid()
      modifies `tick, `dirty
      ensures Valid() && !x.Exdev? && dirty <= old(dirty) && Accounts(old(tick), tick, x)
      ensures x.Ok? ==> forall q | q in tree && Under(q, to) && tree[q].File? :: q !in dirty
      ensures x.Ok? ==> dirs == SyncedDirs(tree, to)
    {
      x, dirs := Ok, {};
      var todo := set q | q in tree && Under(q, to) && tree[q].File?;
      while todo != {}
        invariant x.Ok? && Valid() && dirty <= old(dirty) && Accounts(old(tick), tick, x)
        invariant forall q | q in tree && Under(q, to) && tree[q].File? && q !in todo :: q !in dirty
      {
        var q :| q in todo;
        todo := todo - {q};
        var done;
        done, x := Next();
        if done {
          dirty := dirty - {q};
        }
        if !x.Ok? { return; }
      }
      x, dirs := SyncDirs(SyncedDirs(tree, to));
    }

    method SyncDirs(all: set<Path>) returns (x: Exec, dirs: set<Path>)
      modifies `tick
      ensures !x.Exdev? && Accounts(old(tick), tick, x)
      ensures x.Ok? ==> dirs == all
    {
      x, dirs := Ok, {};
      var todo := all;
      while todo != {}
        invariant x.Ok? && Accounts(old(tick), tick, x) && dirs == all - todo && todo <= all
      {
        var p :| p in todo;
        todo := todo - {p};
        var done;
        done, x := Next();
        if !x.Ok? { return; }
        dirs := dirs + {p};
      }
    }

    /** Deletes the source, or part of it. */
    method DeleteTree(root: Path) returns (x: Exec)
      requires Valid()
      modifies `tick, `tree, `dirty
      ensures Valid() && !x.Exdev? && dirty <= old(dirty) && forall p | p in old(dirty) && p in tree :: p in dirty
      ensures forall p | p in old(tree) && !Under(p, root) :: p in tree && tree[p] == old(tree)[p]
      ensures forall p | p in tree :: p in old(tree) && tree[p] == old(tree)[p]
      ensures x.Ok? ==> !Exists(tree, root)
      ensures Accounts(old(tick), tick, x)
    {
      var done;
      done, x := Next();
      var gone := reach(tick);
      tree := map p | p in tree && !(Under(p, root) && (done || p in gone)) :: tree[p];
      dirty := set p | p in dirty && p in tree;
    }

    /** Copy and compare: on success every file has a full copy. */
    method CopyVerified(from: Path, to: Path) returns (x: Exec, ghost got: map<Path, nat>)
      requires Valid() && Apart(from, to)
      modifies `tick, `tree, `dirty
      ensures Valid() && !x.Exdev?
      ensures tree == Copied(old(tree), from, to, got) && dirty == old(dirty) + Written(old(tree), from, to, got)
      ensures x.Ok? ==> FullCopy(tree, from, to) && forall p | p in old(tree) && Under(p, from) :: p in got
      ensures Blocked(old(tree), from, to) == {} && Reaches(old(tree), from, reach(old(tick) + 1)) ==>
                Accounts(old(tick), tick, x)
      ensures x.Ok? ==> !Trouble(old(tick), tick)
      ensures old(tick) < tick && (x.Died? <==> PowerLost(old(tick), tick))
    {
      x, got := CopyTree(from, to);
      if !x.Ok? { return; }
      CopyIsPrefix(old(tree), from, to, got);
      x := VerifyCopy(from, to);
      if x.Ok? {
        VerifiedIsFull(tree, from, to);
      }
    }

    /** A copy over devices to a free place succeeds only if no call fails, and unless a
        call does or a file does not arrive in full. */
    ghost predicate CopyEnds(t: Tree, from: Path, a: nat, b: nat, r: Outcome) {
      (r.CopiedOver? ==> !Trouble(a, b)) && (r.CopiedOver? || Trouble(a, b) || !Reaches(t, from, reach(a + 1)))
    }

    /** Copy, verify, sync: on success every file is safe at both places. */
    method CopySynced(from: Path, to: Path) returns (x: Exec)
      requires Valid() && Apart(from, to) && !Exists(tree, to)
      modifies `tick, `tree, `dirty
      ensures Valid() && !x.Exdev? && Untouched(old(tree), old(dirty), tree, dirty)
      ensures OnlyWithin(old(tree), old(dirty), tree, dirty, to) && Beyond(old(tree), tree, to)
      ensures x.Ok? ==> Arrived(old(tree), old(dirty), tree, dirty, from, to) && !Trouble(old(tick), tick)
      ensures Reaches(old(tree), from, reach(old(tick) + 1)) ==> Accounts(old(tick), tick, x)
      ensures old(tick) < tick && (x.Died? <==> PowerLost(old(tick), tick))
    {
      ghost var got;
      NothingBlocks(tree, from, to);
      x, got := CopyVerified(from, to);
      CopyLeavesAlone(old(tree), old(dirty), from, to, got);
      CopyStaysWithin(old(tree), old(dirty), from, to, got);
      if x.Ok? {
        var dirs;
        x, dirs := SyncCopy(to);
      }
    }

    /** Across devices: the source goes only after a verified and synced copy. */
    method CopyOver(from: Path, to: Path) returns (r: Outcome)
      requires Valid() && Apart(from, to) && !Exists(tree, to)
      modifies `tick, `tree, `dirty
      ensures Valid() && r in {CopiedOver, Partial, Thrown, Dead}
      ensures OnlyWithin(old(tree), old(dirty), tree, dirty, to) && BeyondBoth(old(tree), tree, from, to)
      ensures Conserved(old(tree), old(dirty), tree, dirty, from, to)
      ensures r.Partial? ==> Untouched(old(tree), old(dirty), tree, dirty) && Beyond(old(tree), tree, to)
      ensures r.CopiedOver? || r.Thrown? ==> Arrived(old(tree), old(dirty), tree, dirty, from, to)
      ensures r.CopiedOver? ==> !Exists(tree, from)
      ensures CopyEnds(old(tree), from, old(tick), tick, r)
      ensures old(tick) < tick && (r.Dead? <==> PowerLost(old(tick), tick))
    {
      var x := CopySynced(from, to);
      if !x.Ok? {
        return if x.Died? then Dead else Partial;
      }
      label copied:
      x := DeleteTree(from);
      DeleteConserves(old(tree), old(dirty), old@copied(tree), old@copied(dirty), tree, dirty, from, to);
      r := if x.Ok? then CopiedOver else if x.Died? then Dead else Thrown;
    }

    /** Making way takes one call, if there is anything, and one for the directory; then
        comes the rename. */
    ghost function RenameAt(t: Tree, to: Path, a: nat): nat {
      a + if Exists(t, to) then 2 else 1
    }

    /** From the rename at `k` on. */
    ghost predicate Settles(t: Tree, from: Path, k: nat, b: nat, r: Outcome) {
      if fate(k).Done? then r.Moved?
      else if fate(k).CrossDevice? then r in {CopiedOver, Partial, Thrown, Dead} && CopyEnds(t, from, k + 1, b, r)
      else r.Thrown? || r.Dead?
    }

    /** How one pair ends, by the calls from `a` to `b`: a conflict before any of them;
        an error if no way can be made; moved if the rename is done; a copy, if it meets
        another device; else an error. */
    ghost predicate Ends(t: Tree, from: Path, to: Path, a: nat, b: nat, r: Outcome) {
      var k := RenameAt(t, to, a);
      if !FileFree(t, to) then r.Conflict? && b == a
      else if Trouble(a, k) then Trouble(a, b) && (r.Thrown? || r.Dead?)
      else
        k < b && Settles(t, from, k, b, r)
    }

    lemma EndsAfter(t: Tree, u: Tree, from: Path, to: Path, a: nat, b: nat, r: Outcome)
      requires FileFree(t, to) && Same(t, u, from) && !Trouble(a, RenameAt(t, to, a))
      requires RenameAt(t, to, a) < b && Settles(u, from, RenameAt(t, to, a), b, r)
      ensures Ends(t, from, to, a, b, r)
    {
      ReachesAlike(t, u, from, reach(RenameAt(t, to, a) + 2));
    }

    /** A call fails, or a copy does not arrive in full. */
    ghost predicate Hindered(t: Tree, from: Path, to: Path, a: nat, b: nat) {
      || Trouble(a, b)
      || (fate(RenameAt(t, to, a)).CrossDevice? && !Reaches(t, from, reach(RenameAt(t, to, a) + 2)))
    }

    lemma EndsWell(t: Tree, from: Path, to: Path, a: nat, b: nat, r: Outcome)
      requires Ends(t, from, to, a, b, r)
      ensures r.Conflict? || r.Moved? || r.CopiedOver? || Hindered(t, from, to, a, b)
    {
    }

    /** An error is one of making way, of the rename, or of removing the source of a
        finished copy. */
    ghost predicate Copying(t: Tree, to: Path, a: nat) {
      !Trouble(a, RenameAt(t, to, a)) && fate(RenameAt(t, to, a)).CrossDevice?
    }

    lemma EndsAlike(t: Tree, u: Tree, from: Path, to: Path, a: nat, b: nat, r: Outcome)
      requires Same(t, u, from) && Same(t, u, to)
      ensures Ends(t, from, to, a, b, r) <==> Ends(u, from, to, a, b, r)
      ensures Copying(t, to, a) <==> Copying(u, to, a)
    {
      ExistsAlike(t, u, to);
      ReachesAlike(t, u, from, reach(RenameAt(t, to, a) + 2));
    }

    /** Moves one pair. A destination with any file in it is a conflict; one with
        directories only makes way. */
    method MovePair(from: Path, to: Path) returns (r: Outcome)
      requires Valid() && Apart(from, to) && to != []
      modifies `tick, `tree, `dirty
      ensures Valid() && Conserved(old(tree), old(dirty), tree, dirty, from, to)
      ensures OnlyWithin(old(tree), old(dirty), tree, dirty, to)
      ensures !r.Dead? ==> BeyondBoth(old(tree), tree, from, to)
      ensures Ends(old(tree), from, to, old(tick), tick, r)
      ensures r.Conflict? ==> tree == old(tree) && dirty == old(dirty)
      ensures r.Moved? || r.CopiedOver? ==>
                !Exists(tree, from) && Arrived(old(tree), old(dirty), tree, dirty, from, to)
      ensures r.Partial? || (r.Thrown? && !Copying(old(tree), to, old(tick))) ==>
                Untouched(old(tree), old(dirty), tree, dirty) && Beyond(old(tree), tree, to)
      ensures r.Thrown? && Copying(old(tree), to, old(tick)) ==>
                Arrived(old(tree), old(dirty), tree, dirty, from, to)
      ensures r.Dead? ==> dirty == {}
      ensures old(tick) <= tick && (r.Dead? <==> PowerLost(old(tick), tick))
    {
      if Exists(tree, to) {
        if !FileFree(tree, to) {
          return Conflict;
        }
      }
      r := MoveInto(from, to);
      if r.Dead? {
        label dead:
        LosePower();
        WithinTwice(old(tree), old(dirty), old@dead(tree), old@dead(dirty), tree, dirty, to);
        EndsDead(old(tree), from, to, old(tick), old@dead(tick), tick);
      }
    }

    lemma EndsDead(t: Tree, from: Path, to: Path, a: nat, b: nat, c: nat)
      requires b <= c && Ends(t, from, to, a, b, Dead) && PowerLost(a, b)
      ensures Ends(t, from, to, a, c, Dead) && PowerLost(a, c)
    {
    }

    /** Makes way and makes the directory that holds `to`. */
    method MakeReady(to: Path) returns (x: Exec)
      requires Valid() && to != [] && FileFree(tree, to)
      modifies `tick, `tree, `dirty
      ensures Valid() && Untouched(old(tree), old(dirty), tree, dirty)
      ensures OnlyWithin(old(tree), old(dirty), tree, dirty, to) && Beyond(old(tree), tree, to)
      ensures x.Ok? ==> !Exists(tree, to) && Exists(tree, Parent(to)) && tick == RenameAt(old(tree), to, old(tick))
      ensures tick <= RenameAt(old(tree), to, old(tick)) && !x.Exdev? && Accounts(old(tick), tick, x)
    {
      x := Ok;
      if Exists(tree, to) {
        x := RemoveScaffold(to);
      }
      if x.Ok? {
        x := MakeDir(Parent(to));
      }
    }

    method MoveInto(from: Path, to: Path) returns (r: Outcome)
      requires Valid() && Apart(from, to) && to != [] && FileFree(tree, to)
      modifies `tick, `tree, `dirty
      ensures Valid() && Conserved(old(tree), old(dirty), tree, dirty, from, to)
      ensures OnlyWithin(old(tree), old(dirty), tree, dirty, to) && BeyondBoth(old(tree), tree, from, to)
      ensures Ends(old(tree), from, to, old(tick), tick, r)
      ensures r.Moved? || r.CopiedOver? ==> !Exists(tree, from) && Arrived(old(tree), old(dirty), tree, dirty, from, to)
      ensures r.Partial? || (r.Thrown? && !Copying(old(tree), to, old(tick))) ==>
                Untouched(old(tree), old(dirty), tree, dirty) && Beyond(old(tree), tree, to)
      ensures r.Thrown? && Copying(old(tree), to, old(tick)) ==> Arrived(old(tree), old(dirty), tree, dirty, from, to)
      ensures old(tick) <= tick && (r.Dead? <==> PowerLost(old(tick), tick))
    {
      var x := MakeReady(to);
      if !x.Ok? {
        return if x.Died? then Dead else Thrown;
      }
      label ready:
      SourceStays(old(tree), old(dirty), tree, dirty, from, to);
      r := RenameOrCopy(from, to);
      EndsAfter(old(tree), old@ready(tree), from, to, old(tick), tick, r);
      Compose(old(tree), old(dirty), old@ready(tree), old@ready(dirty), tree, dirty, from, to);
      WithinTwice(old(tree), old(dirty), old@ready(tree), old@ready(dirty), tree, dirty, to);
    }

    method RenameOrCopy(from: Path, to: Path) returns (r: Outcome)
      requires Valid() && Apart(from, to) && !Exists(tree, to) && Exists(tree, Parent(to))
      modifies `tick, `tree, `dirty
      ensures Valid() && Conserved(old(tree), old(dirty), tree, dirty, from, to)
      ensures OnlyWithin(old(tree), old(dirty), tree, dirty, to) && BeyondBoth(old(tree), tree, from, to)
      ensures Settles(old(tree), from, old(tick), tick, r)
      ensures r.Moved? || r.CopiedOver? ==> !Exists(tree, from) && Arrived(old(tree), old(dirty), tree, dirty, from, to)
      ensures r.Partial? || (r.Thrown? && !fate(old(tick)).CrossDevice?) ==>
                Untouched(old(tree), old(dirty), tree, dirty) && Beyond(old(tree), tree, to)
      ensures r.Thrown? && fate(old(tick)).CrossDevice? ==> Arrived(old(tree), old(dirty), tree, dirty, from, to)
      ensures old(tick) < tick && (r.Dead? <==> PowerLost(old(tick), tick))
    {
      var x := Rename(from, to);
      r := if x.Ok? then Moved else if x.Died? then Dead else Thrown;
      if x.Exdev? {
        r := CopyOver(from, to);
      }
    }

    /** Rename onto a place that may be taken, in a directory that may be missing: only an
        empty directory makes way. */
    method RenameOnto(from: Path, to: Path) returns (x: Exec)
      requires Valid() && Apart(from, to)
      modifies `tick, `tree, `dirty
      ensures Valid() && Conserved(old(tree), old(dirty), tree, dirty, from, to)
      ensures OnlyWithin(old(tree), old(dirty), tree, dirty, to)
      ensures BeyondBoth(old(tree), tree, from, to)
      ensures x.Failed? || x.Exdev? ==> tree == old(tree) && dirty == old(dirty)
      ensures x.Ok? ==> !Exists(tree, from) && Arrived(old(tree), old(dirty), tree, dirty, from, to)
      ensures fate(old(tick)).CrossDevice? <==> x.Exdev?
      ensures tick == old(tick) + 1 && (x.Died? <==> PowerLost(old(tick), tick))
      ensures x.Ok? || x.Exdev? || Trouble(old(tick), tick) || Occupied(old(tree), to)
              || !Exists(old(tree), Parent(to))
      ensures x.Ok? ==> !Trouble(old(tick), tick)
    {
      var done;
      done, x := NextRename();
      if done {
        if Occupied(tree, to) || !Exists(tree, Parent(to)) {
          return if x.Ok? then Failed else x;
        }
        tree, dirty := Without(tree, to), set p | p in dirty && !Under(p, to);
        RenameConserves(tree, dirty, from, to);
        Compose(old(tree), old(dirty), tree, dirty, Renamed(tree, from, to), RenamedSet(dirty, from, to), from, to);
        tree, dirty := Renamed(tree, from, to), RenamedSet(dirty, from, to);
      }
    }

    /** The queue phase moves without looking: across devices it copies over what
        is there. A completed copy keeps a file of the destination exactly if no
        different file of the source has its name. */
    method MoveQueueDir(from: Path, to: Path) returns (r: Outcome)
      requires Valid() && Apart(from, to)
      modifies `tick, `tree, `dirty
      ensures Valid() && r in {Moved, CopiedOver, Thrown, Dead}
      ensures ConservedBeside(old(tree), old(dirty), tree, dirty, from, to)
      ensures OnlyWithin(old(tree), old(dirty), tree, dirty, to)
      ensures !r.Dead? ==> BeyondBoth(old(tree), tree, from, to)
      ensures r.Moved? ==> Conserved(old(tree), old(dirty), tree, dirty, from, to)
      ensures r.Moved? || r.CopiedOver? ==> !Exists(tree, from) && Arrived(old(tree), old(dirty), tree, dirty, from, to)
      ensures r.CopiedOver? ==> SourceWins(old(tree), old(dirty), tree, dirty, from, to)
      ensures r.Dead? ==> dirty == {}
      ensures if fate(old(tick)).CrossDevice? then !r.Moved? && OntoEnds(old(tree), from, to, old(tick) + 1, tick, r)
              else !r.CopiedOver? && (r.Moved? || Trouble(old(tick), tick) || Occupied(old(tree), to)
                                      || !Exists(old(tree), Parent(to)))
      ensures old(tick) < tick && (r.Dead? <==> PowerLost(old(tick), tick))
    {
      var x := RenameOnto(from, to);
      r := if x.Ok? then Moved else if x.Died? then Dead else Thrown;
      if x.Exdev? {
        r := CopyOnto(from, to);
      }
      if r.Dead? {
        label dead:
        LosePower();
        WithinTwice(old(tree), old(dirty), old@dead(tree), old@dead(dirty), tree, dirty, to);
      }
    }

    /** The same, where a directory may meet a file. */
    ghost predicate OntoEnds(t: Tree, from: Path, to: Path, a: nat, b: nat, r: Outcome) {
      CopyEnds(t, from, a, b, r) || (!r.CopiedOver? && Blocked(t, from, to) != {})
    }

    method CopyOntoSynced(from: Path, to: Path) returns (x: Exec)
      requires Valid() && Apart(from, to)
      modifies `tick, `tree, `dirty
      ensures Valid() && !x.Exdev? && ConservedBeside(old(tree), old(dirty), tree, dirty, from, to)
      ensures OnlyWithin(old(tree), old(dirty), tree, dirty, to)
      ensures Beyond(old(tree), tree, to)
      ensures x.Ok? ==> Arrived(old(tree), old(dirty), tree, dirty, from, to)
      ensures x.Ok? ==> SourceWins(old(tree), old(dirty), tree, dirty, from, to)
      ensures Blocked(old(tree), from, to) == {} && Reaches(old(tree), from, reach(old(tick) + 1)) ==>
                Accounts(old(tick), tick, x)
      ensures x.Ok? ==> !Trouble(old(tick), tick)
      ensures old(tick) < tick && (x.Died? <==> PowerLost(old(tick), tick))
    {
      ghost var got;
      x, got := CopyVerified(from, to);
      CopyStaysWithin(old(tree), old(dirty), from, to, got);
      if x.Ok? {
        var dirs;
        x, dirs := SyncCopy(to);
        if x.Ok? {
          CopyArrives(old(tree), old(dirty), from, to, got, dirty);
          CopyOverwrites(old(tree), old(dirty), from, to, got, dirty);
        }
      }
      CopyLeavesRest(old(tree), old(dirty), from, to, got, dirty);
    }

    method CopyOnto(from: Path, to: Path) returns (r: Outcome)
      requires Valid() && Apart(from, to)
      modifies `tick, `tree, `dirty
      ensures Valid() && r in {CopiedOver, Thrown, Dead}
      ensures ConservedBeside(old(tree), old(dirty), tree, dirty, from, to)
      ensures OnlyWithin(old(tree), old(dirty), tree, dirty, to)
      ensures BeyondBoth(old(tree), tree, from, to)
      ensures r.CopiedOver? ==> !Exists(tree, from) && Arrived(old(tree), old(dirty), tree, dirty, from, to)
      ensures r.CopiedOver? ==> SourceWins(old(tree), old(dirty), tree, dirty, from, to)
      ensures OntoEnds(old(tree), from, to, old(tick), tick, r)
      ensures old(tick) < tick && (r.Dead? <==> PowerLost(old(tick), tick))
    {
      var x := CopyOntoSynced(from, to);
      if !x.Ok? {
        return if x.Died? then Dead else Thrown;
      }
      label copied:
      x := DeleteTree(from);
      DeleteKeepsBeside(old(tree), old(dirty), old@copied(tree), old@copied(dirty), tree, dirty, from, to);
      r := if x.Ok? then CopiedOver else if x.Died? then Dead else Thrown;
    }
  }
  /** Two files of one name, two devices, nothing goes wrong: the queue phase ends
      well, and the file that was in the queue is gone. */
  method QueueMoveOverwrites(from: Path, to: Path, name: string, x: Bytes, y: Bytes) returns (d: Disk, r: Outcome)
    requires Apart(from, to) && x != y
    ensures fresh(d) && r.CopiedOver? && d.Valid()
    ensures to + [name] in d.tree && d.tree[to + [name]] == File(x)
    ensures !Conserved(map[from + [name] := File(x), to + [name] := File(y)], {}, d.tree, d.dirty, from, to)
  {
    var p, q := from + [name], to + [name];
    TwoNames(from, to, name);
    var t: Tree := map[p := File(x), q := File(y)];
    d := new Disk(k => if k == 0 then CrossDevice else Done, _ => map[p := |x|], t);
    r := d.MoveQueueDir(from, to);
    assert p in t && t[p] == File(x) && q in t && t[q] == File(y);
  }

  lemma TwoNames(from: Path, to: Path, name: string)
    requires Apart(from, to)
    ensures Under(from + [name], from) && !Under(from + [name], to)
    ensures Under(to + [name], to) && !Under(to + [name], from)
    ensures Relocate(from + [name], from, to) == to + [name] && Relocate(to + [name], to, from) == from + [name]
  {
  }
}
