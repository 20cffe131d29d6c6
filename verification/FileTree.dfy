/** A file system as the mover sees it: what is at which path, and what of it has
    not reached the disk yet. */
module FileTree {

  type Path = seq<string>

  type Bytes = seq<bv8>

  /** A directory of its own, a regular file, or anything else (never followed). */
  datatype Node = Dir | File(data: Bytes) | Other

  /** Directories with entries need no node of their own. */
  type Tree = map<Path, Node>

  predicate Under(p: Path, root: Path) {
    root <= p
  }

  predicate Apart(a: Path, b: Path) {
    !Under(a, b) && !Under(b, a)
  }

  lemma ApartBelow(a: Path, b: Path, x: Path, y: Path)
    requires Apart(a, b)
    ensures Apart(a + x, b + y)
  {
    if |a| <= |b| {
      var k :| 0 <= k < |a| && a[k] != b[k];
      assert (a + x)[k] != (b + y)[k];
    } else {
      var k :| 0 <= k < |b| && a[k] != b[k];
      assert (a + x)[k] != (b + y)[k];
    }
  }

  lemma ApartInside(root: Path, x: Path, y: Path)
    requires x != [] && y != [] && x[0] != y[0]
    ensures Apart(root + x, root + y)
  {
    assert (root + x)[|root|] == x[0] && (root + y)[|root|] == y[0];
  }

  lemma ApartUnder(root: Path, x: Path, y: Path)
    requires Apart(x, y)
    ensures Apart(root + x, root + y)
  {
    if Under(root + x, root + y) {
      assert forall k | 0 <= k < |y| :: x[k] == (root + x)[|root| + k] == (root + y)[|root| + k] == y[k];
    }
    if Under(root + y, root + x) {
      assert forall k | 0 <= k < |x| :: y[k] == (root + y)[|root| + k] == (root + x)[|root| + k] == x[k];
    }
  }

  function Relocate(p: Path, from: Path, to: Path): Path
    requires Under(p, from)
  {
    to + p[|from|..]
  }

  lemma RelocateBack(p: Path, from: Path, to: Path)
    requires Under(p, from)
    ensures Under(Relocate(p, from, to), to) && Relocate(Relocate(p, from, to), to, from) == p
  {
  }

  predicate Exists(t: Tree, p: Path) {
    exists q | q in t :: Under(q, p)
  }

  /** Only directories, however deep. */
  predicate FileFree(t: Tree, root: Path) {
    forall q | q in t && Under(q, root) :: t[q].Dir?
  }

  function Without(t: Tree, root: Path): Tree {
    map p | p in t && !Under(p, root) :: t[p]
  }

  /** Where the nodes under `from` would be under `to`. */
  function Images(t: Tree, from: Path, to: Path): set<Path> {
    set p | p in t && Under(p, from) :: Relocate(p, from, to)
  }

  lemma ImagesAre(t: Tree, from: Path, to: Path, q: Path)
    ensures q in Images(t, from, to) <==> Under(q, to) && Relocate(q, to, from) in t
  {
    if q in Images(t, from, to) {
      var p :| p in t && Under(p, from) && q == Relocate(p, from, to);
      RelocateBack(p, from, to);
    }
    if Under(q, to) && Relocate(q, to, from) in t {
      RelocateBack(q, to, from);
    }
  }

  function Renamed(t: Tree, from: Path, to: Path): Tree {
    Without(t, from)
    + map q | q in Images(t, from, to) && Under(q, to) && Relocate(q, to, from) in t :: t[Relocate(q, to, from)]
  }

  /** The first `k` bytes of a file. */
  function Cut(n: Node, k: nat): Node {
    if n.File? && k < |n.data| then File(n.data[..k]) else n
  }

  /** A copy that got to the sources in `reach`, and of each so many bytes. */
  function Copied(t: Tree, from: Path, to: Path, reach: map<Path, nat>): Tree {
    t + map q | q in Images(t, from, to) && Under(q, to) && Relocate(q, to, from) in t && Relocate(q, to, from) in reach
          :: Cut(t[Relocate(q, to, from)], reach[Relocate(q, to, from)])
  }

  function Written(t: Tree, from: Path, to: Path, reach: map<Path, nat>): set<Path> {
    set q | q in Images(t, from, to) && Under(q, to) && Relocate(q, to, from) in reach
  }

  /** After a power loss: unsynced files are cut short or gone. */
  function Torn(t: Tree, dirty: set<Path>, left: map<Path, nat>): Tree {
    map p | p in t && (p !in dirty || p in left) :: if p in dirty then Cut(t[p], left[p]) else t[p]
  }

  /** A file that a power loss cannot take away. */
  predicate SafeAt(t: Tree, dirty: set<Path>, p: Path, n: Node) {
    p in t && t[p] == n && p !in dirty
  }

  lemma TornKeepsSafe(t: Tree, dirty: set<Path>, left: map<Path, nat>, p: Path, n: Node)
    requires SafeAt(t, dirty, p, n)
    ensures SafeAt(Torn(t, dirty, left), {}, p, n)
  {
  }
}
